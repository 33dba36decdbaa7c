/** Bounded views of unbounded streams: `cappedAppend` (extensions/background-task.ts), the `append` of
    a sub-agent run (extensions/sub-agent-runtime.ts), the `append` of a workflow step
    (extensions/workflow.ts) and `headTail` (extensions/web-tools/parse.ts). */
module StreamBuffers {
  import opened Sequences

  /** All chunks, one after the other. */
  function Concat(chunks: seq<string>): string {
    if chunks == [] then "" else Concat(chunks[..|chunks| - 1]) + chunks[|chunks| - 1]
  }

  /** `s.slice(-n)` for positive `n`. */
  function Last(s: string, n: nat): string {
    if |s| <= n then s else s[|s| - n..]
  }

  lemma LastOfAppend(s: string, t: string, n: nat)
    ensures Last(Last(s, n) + t, n) == Last(s + t, n)
  {
    var whole, part := s + t, Last(s, n) + t;
    if |s| > n && |t| <= n {
      assert forall k :: 0 <= k < n ==> Last(part, n)[k] == Last(whole, n)[k];
    }
  }

  // ---------------------------------------------------------------- head and tail of a task's stream

  const STREAM_CAP: nat := 524288
  const HEAD_KEEP: nat := 131072
  const TAIL_KEEP: nat := 131072

  datatype Capped = Capped(value: string, dropped: int)

  function CappedAppend(current: string, chunk: string, dropped: int): Capped {
    var value := current + chunk;
    if dropped == 0 && |value| <= STREAM_CAP then Capped(value, dropped)
    else if dropped == 0 then
      // here |value| > STREAM_CAP >= HEAD_KEEP
      Capped(value[..HEAD_KEEP] + value[|value| - TAIL_KEEP..], |value| - HEAD_KEEP - TAIL_KEEP)
    else
      var keep := if |current| < HEAD_KEEP then |current| else HEAD_KEEP;
      var tailPart := current[keep..] + chunk;
      var newTail := Last(tailPart, TAIL_KEEP);
      Capped(current[..keep] + newTail, dropped + (|tailPart| - |newTail|))
  }

  /** What is kept of a whole stream. */
  function Kept(stream: string): Capped {
    if |stream| <= STREAM_CAP then Capped(stream, 0)
    else Capped(stream[..HEAD_KEEP] + Last(stream, TAIL_KEEP), |stream| - HEAD_KEEP - TAIL_KEEP)
  }

  lemma AppendKeeps(stream: string, chunk: string)
    ensures CappedAppend(Kept(stream).value, chunk, Kept(stream).dropped) == Kept(stream + chunk)
  {
    var k, whole := Kept(stream), stream + chunk;
    if |stream| > STREAM_CAP {
      assert k.value[..HEAD_KEEP] == stream[..HEAD_KEEP] == whole[..HEAD_KEEP];
      assert k.value[HEAD_KEEP..] == Last(stream, TAIL_KEEP);
      LastOfAppend(stream, chunk, TAIL_KEEP);
    }
  }

  function AppendAll(chunks: seq<string>): Capped {
    if chunks == [] then Capped("", 0)
    else
      var before := AppendAll(chunks[..|chunks| - 1]);
      CappedAppend(before.value, chunks[|chunks| - 1], before.dropped)
  }

  /** However a stream is cut into chunks, the buffer holds the whole stream or exactly its first
      HEAD_KEEP and last TAIL_KEEP characters, counts what it dropped, and stays within the cap. */
  lemma {:induction false} HeadTailOfStream(chunks: seq<string>)
    ensures var stream, r := Concat(chunks), AppendAll(chunks);
      && r == Kept(stream)
      && |r.value| + r.dropped == |stream| && r.dropped >= 0 && |r.value| <= STREAM_CAP
      && (r.dropped == 0 <==> |stream| <= STREAM_CAP)
      && (r.dropped == 0 ==> r.value == stream)
      && (r.dropped > 0 ==>
            r.value == stream[..HEAD_KEEP] + stream[|stream| - TAIL_KEEP..])
  {
    if chunks != [] {
      HeadTailOfStream(chunks[..|chunks| - 1]);
      AppendKeeps(Concat(chunks[..|chunks| - 1]), chunks[|chunks| - 1]);
    }
  }

  class TaskStream {
    var stdout: string
    var stdoutDropped: int
    ghost var stream: string

    ghost predicate Valid()
      reads this
    {
      Capped(stdout, stdoutDropped) == Kept(stream)
    }

    constructor ()
      ensures Valid() && stream == ""
    {
      stdout, stdoutDropped, stream := "", 0, "";
    }

    method OnData(chunk: string)
      requires Valid()
      modifies this
      ensures Valid() && stream == old(stream) + chunk
    {
      AppendKeeps(stream, chunk);
      var r := CappedAppend(stdout, chunk, stdoutDropped);
      stdout, stdoutDropped := r.value, r.dropped;
      stream := stream + chunk;
    }
  }

  // ---------------------------------------------------------------- a sub-agent's output

  const OUTPUT_CAP: nat := 50_000
  const MARKER := "\n...(output truncated)...\n"
  const HALF: nat := (OUTPUT_CAP - |MARKER|) / 2
  const REST: nat := OUTPUT_CAP - |MARKER| - HALF

  /** One `append`: `out` before, `out` after. */
  function Appended(out: string, chunk: string): string {
    var next := out + chunk;
    if |next| <= OUTPUT_CAP then next
    else next[..HALF] + MARKER + Last(next, REST)
  }

  /** What is shown of a whole output. */
  function Shown(stream: string): string {
    if |stream| <= OUTPUT_CAP then stream else stream[..HALF] + MARKER + Last(stream, REST)
  }

  lemma MarkerLength()
    ensures |MARKER| == 26 && HALF == 24987 && REST == 24987
  {
  }

  lemma AppendedShows(stream: string, chunk: string)
    ensures Appended(Shown(stream), chunk) == Shown(stream + chunk)
  {
    MarkerLength();
    var out, whole := Shown(stream), stream + chunk;
    if |stream| > OUTPUT_CAP {
      assert |out| == OUTPUT_CAP;
      if chunk == "" {
        assert whole == stream && out + chunk == out;
      } else {
        assert (out + chunk)[..HALF] == stream[..HALF] == whole[..HALF];
        TailSurvives(stream, chunk);
      }
    }
  }

  lemma TailSurvives(stream: string, chunk: string)
    requires |stream| > OUTPUT_CAP
    ensures Last(Shown(stream) + chunk, REST) == Last(stream + chunk, REST)
  {
    MarkerLength();
    var out := Shown(stream);
    assert Last(out, REST) == Last(stream, REST);
    LastOfAppend(out, chunk, REST);
    LastOfAppend(stream, chunk, REST);
  }

  class ChildOutput {
    var out: string
    ghost var stream: string

    ghost predicate Valid()
      reads this
    {
      out == Shown(stream)
    }

    constructor ()
      ensures Valid() && stream == ""
    {
      out, stream := "", "";
    }

    method Append(chunk: string)
      requires Valid()
      modifies this
      ensures Valid() && stream == old(stream) + chunk
    {
      AppendedShows(stream, chunk);
      var next := out + chunk;
      if |next| <= OUTPUT_CAP {
        out := next;
      } else {
        out := next[..HALF] + MARKER + Last(next, REST);
      }
      stream := stream + chunk;
    }
  }

  function AppendChunks(chunks: seq<string>): string {
    if chunks == [] then "" else Appended(AppendChunks(chunks[..|chunks| - 1]), chunks[|chunks| - 1])
  }

  /** However the output is cut into chunks, a sub-agent shows all of it, or its head, one marker and its
      tail in exactly OUTPUT_CAP characters: markers never nest and no marker text is mistaken for tail. */
  lemma {:induction false} OutputOfStream(chunks: seq<string>)
    ensures var stream, out := Concat(chunks), AppendChunks(chunks);
      && out == Shown(stream)
      && |out| == (if |stream| <= OUTPUT_CAP then |stream| else OUTPUT_CAP)
      && (|stream| > OUTPUT_CAP ==>
            && stream[..HALF] <= out && out[HALF..HALF + |MARKER|] == MARKER
            && out[HALF + |MARKER|..] == stream[|stream| - REST..])
  {
    MarkerLength();
    if chunks != [] {
      OutputOfStream(chunks[..|chunks| - 1]);
      AppendedShows(Concat(chunks[..|chunks| - 1]), chunks[|chunks| - 1]);
    }
  }

  // ---------------------------------------------------------------- a workflow step's output

  const STEP_MARKER := "\n...(truncated)"

  /** `append` and `cappedOutput` of a workflow step. */
  function StepAppend(out: string, chunk: string): string {
    if |out| <= OUTPUT_CAP then out + chunk else out
  }

  function StepOutput(out: string): string {
    if |out| > OUTPUT_CAP then out[..OUTPUT_CAP] + STEP_MARKER else out
  }

  function StepAppendAll(chunks: seq<string>): string {
    if chunks == [] then "" else StepAppend(StepAppendAll(chunks[..|chunks| - 1]), chunks[|chunks| - 1])
  }

  /** A step keeps a beginning of its stream long enough that the reported output is that of the whole
      stream, however it is cut. */
  lemma {:induction false} StepOutputOfStream(chunks: seq<string>)
    ensures var stream, out := Concat(chunks), StepAppendAll(chunks);
      && out <= stream && (out == stream || |out| > OUTPUT_CAP)
      && StepOutput(out) == if |stream| <= OUTPUT_CAP then stream else stream[..OUTPUT_CAP] + STEP_MARKER
  {
    if chunks != [] {
      StepOutputOfStream(chunks[..|chunks| - 1]);
    }
  }

  // ---------------------------------------------------------------- headTail

  const OMITTED := "\n...[middle omitted by Canvast web_fetch; use focus_terms for a specific section]...\n"

  /** `Math.floor(n * 0.55)` for an integer, rounding towards minus infinity. */
  function HeadShare(n: int): int {
    n * 55 / 100
  }

  function HeadChars(maxChars: int): nat {
    Max(1, HeadShare(maxChars - |OMITTED|))
  }

  function TailChars(maxChars: int): nat {
    Max(1, maxChars - |OMITTED| - HeadChars(maxChars))
  }

  function HeadTail(text: string, maxChars: int): (string, bool) {
    if |text| <= maxChars then (text, false)
    else
      var head := if HeadChars(maxChars) < |text| then HeadChars(maxChars) else |text|;
      (text[..head] + OMITTED + text[Max(0, |text| - TailChars(maxChars))..], true)
  }

  /** `headTail` keeps to its limit exactly when the text fits, or the limit leaves two characters beside
      the marker; then a capped text has exactly `maxChars` characters. */
  lemma HeadTailWithinLimit(text: string, maxChars: int)
    ensures HeadTail(text, maxChars).1 <==> |text| > maxChars
    ensures |text| <= maxChars ==> HeadTail(text, maxChars).0 == text
    ensures |HeadTail(text, maxChars).0| <= maxChars <==> |text| <= maxChars || maxChars >= |OMITTED| + 2
    ensures |text| > maxChars >= |OMITTED| + 2 ==> |HeadTail(text, maxChars).0| == maxChars
    ensures |text| > maxChars >= |OMITTED| + 2 ==>
      HeadTail(text, maxChars).0 == text[..HeadChars(maxChars)] + OMITTED + text[|text| - TailChars(maxChars)..]
  {
    var n := maxChars - |OMITTED|;
    if n >= 2 {
      assert 1 <= Max(1, HeadShare(n)) <= n - 1;
    } else {
      assert HeadShare(n) <= 1;
    }
  }

  /** A limit shorter than the marker is overrun. */
  lemma HeadTailOverruns()
    ensures |HeadTail("abcdef", 5).0| > 5
  {
  }
}
