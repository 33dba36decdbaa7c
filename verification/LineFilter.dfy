/** The line splitter of `pipeFilteredJsonOutput` (src/cli.ts): chunks are split on an optional CR and
    an LF, the unfinished rest is buffered, and a nonempty rest is flushed at the end. */
module LineFilter {
  import opened Sequences
  import opened StreamBuffers

  const LF: char := '\n'
  const CR: char := '\r'

  function FirstLf(text: string): (i: nat)
    ensures i <= |text|
    ensures forall k :: 0 <= k < i ==> text[k] != LF
    ensures i < |text| ==> text[i] == LF
  {
    if text == "" || text[0] == LF then 0 else 1 + FirstLf(text[1..])
  }

  function DropCr(line: string): string {
    if line != "" && line[|line| - 1] == CR then line[..|line| - 1] else line
  }

  /** `text.split(/\r?\n/)`. */
  function Split(text: string): (lines: seq<string>)
    ensures lines != []
    decreases |text|
  {
    var i := FirstLf(text);
    if i == |text| then [text]
    else [DropCr(text[..i])] + Split(text[i + 1..])
  }

  // ---------------------------------------------------------------- what splitting means

  /** `lines` with `seps[k]` behind the k-th line and nothing behind the last. */
  function Rejoin(lines: seq<string>, seps: seq<string>): string
    requires |lines| == |seps| + 1
  {
    if seps == [] then lines[0] else lines[0] + seps[0] + Rejoin(lines[1..], seps[1..])
  }

  ghost predicate Separated(lines: seq<string>, seps: seq<string>) {
    && |lines| == |seps| + 1
    && (forall k :: 0 <= k < |lines| ==> LF !in lines[k])
    && (forall k :: 0 <= k < |seps| ==> seps[k] == [CR, LF] || (seps[k] == [LF] && DropCr(lines[k]) == lines[k]))
  }

  lemma SplitCons(text: string)
    requires FirstLf(text) < |text|
    ensures Split(text) == [DropCr(text[..FirstLf(text)])] + Split(text[FirstLf(text) + 1..])
  {
  }

  lemma SplitNone(text: string)
    requires FirstLf(text) == |text|
    ensures Split(text) == [text]
  {
  }

  lemma RejoinCons(line: string, sep: string, lines: seq<string>, seps: seq<string>)
    requires |lines| == |seps| + 1
    ensures Rejoin([line] + lines, [sep] + seps) == line + sep + Rejoin(lines, seps)
  {
    assert ([line] + lines)[1..] == lines && ([sep] + seps)[1..] == seps;
  }

  lemma SeparatedCons(line: string, sep: string, lines: seq<string>, seps: seq<string>)
    requires LF !in line && (sep == [CR, LF] || (sep == [LF] && DropCr(line) == line))
    ensures Separated(lines, seps) ==> Separated([line] + lines, [sep] + seps)
  {
  }

  /** How the first line, its separator and the rest lie in a text. */
  lemma FirstLine(text: string) returns (sep: string)
    requires FirstLf(text) < |text|
    ensures var i := FirstLf(text);
      var line := DropCr(text[..i]);
      && LF !in line && (sep == [CR, LF] || (sep == [LF] && DropCr(line) == line))
      && text == line + sep + text[i + 1..]
  {
    var i := FirstLf(text);
    var line := DropCr(text[..i]);
    sep := text[|line|..i + 1];
    forall c | c in line ensures c != LF {
      var k :| 0 <= k < |line| && line[k] == c;
      assert text[k] == c;
    }
    if line == text[..i] {
      assert sep == [LF];
    } else {
      assert sep == [CR, LF];
    }
    assert text[..|line|] == line;
    assert text == text[..|line|] + text[|line|..i + 1] + text[i + 1..];
  }

  /** The lines and their separators make up the text, no line holds an LF, and a CR before an LF always
      belongs to the separator. */
  lemma {:induction false} SplitSeparates(text: string) returns (seps: seq<string>)
    ensures Separated(Split(text), seps) && Rejoin(Split(text), seps) == text
    decreases |text|
  {
    var i := FirstLf(text);
    if i == |text| {
      seps := [];
    } else {
      var sep := FirstLine(text);
      SplitCons(text);
      hide Split, FirstLf, Separated, Rejoin;
      var rest := SplitSeparates(text[i + 1..]);
      seps := [sep] + rest;
      SeparatedCons(DropCr(text[..i]), sep, Split(text[i + 1..]), rest);
      SeparatedLength(Split(text[i + 1..]), rest);
      RejoinCons(DropCr(text[..i]), sep, Split(text[i + 1..]), rest);
    }
  }

  lemma SeparatedLength(lines: seq<string>, seps: seq<string>)
    requires Separated(lines, seps)
    ensures |lines| == |seps| + 1
  {
  }

  /** A text that starts with a separated line has its first LF at the end of the separator. */
  lemma LineLeads(line: string, sep: string, rest: string)
    requires LF !in line && (sep == [CR, LF] || (sep == [LF] && DropCr(line) == line))
    ensures var text := line + sep + rest;
      FirstLf(text) < |text| && DropCr(text[..FirstLf(text)]) == line && text[FirstLf(text) + 1..] == rest
  {
    var text, n := line + sep + rest, |line| + |sep| - 1;
    assert text[n] == LF;
    forall k | 0 <= k < n ensures text[k] != LF {
      if k < |line| { assert text[k] in line; } else { assert text[k] == sep[k - |line|]; }
    }
    assert FirstLf(text) == n;
    assert text[..n] == line + sep[..|sep| - 1];
  }

  /** No other lines separate the same text. */
  lemma {:induction false} SeparationIsUnique(text: string, lines: seq<string>, seps: seq<string>)
    requires Separated(lines, seps) && Rejoin(lines, seps) == text
    ensures lines == Split(text)
    decreases |lines|
  {
    hide Split, DropCr;
    if seps == [] {
      assert lines == [text];
      assert FirstLf(text) == |text|;
      SplitNone(text);
    } else {
      var rest := Rejoin(lines[1..], seps[1..]);
      SeparatedTail(lines, seps);
      LineLeads(lines[0], seps[0], rest);
      assert text == lines[0] + seps[0] + rest;
      hide FirstLf, Separated, Rejoin;
      SplitCons(text);
      SeparationIsUnique(rest, lines[1..], seps[1..]);
      assert lines == [lines[0]] + lines[1..];
    }
  }

  lemma SeparatedTail(lines: seq<string>, seps: seq<string>)
    requires Separated(lines, seps) && seps != []
    ensures Separated(lines[1..], seps[1..]) && |lines| == |seps| + 1
    ensures LF !in lines[0] && (seps[0] == [CR, LF] || (seps[0] == [LF] && DropCr(lines[0]) == lines[0]))
  {
  }

  // ---------------------------------------------------------------- splitting in pieces

  /** Splitting what is left of a split text together with more text continues the split. */
  lemma {:induction false} SplitAppend(a: string, b: string)
    ensures var s := Split(a); Split(a + b) == s[..|s| - 1] + Split(s[|s| - 1] + b)
    decreases |a|
  {
    hide Split, DropCr;
    var i, s := FirstLf(a), Split(a);
    if i < |a| {
      var line, rest := DropCr(a[..i]), Split(a[i + 1..]);
      FirstLfAppend(a, b);
      SplitCons(a);
      SplitCons(a + b);
      assert (a + b)[..i] == a[..i] && (a + b)[i + 1..] == a[i + 1..] + b;
      hide FirstLf;
      SplitAppend(a[i + 1..], b);
      FrontOfCons(line, rest);
      Assoc([line], rest[..|rest| - 1], Split(rest[|rest| - 1] + b));
    } else {
      SplitNone(a);
      assert s[..|s| - 1] == [] && [] + Split(a + b) == Split(a + b);
    }
  }

  lemma FrontOfCons(line: string, rest: seq<string>)
    requires rest != []
    ensures var s := [line] + rest; s[..|s| - 1] == [line] + rest[..|rest| - 1] && s[|s| - 1] == rest[|rest| - 1]
  {
  }

  lemma {:induction false} FirstLfAppend(a: string, b: string)
    requires FirstLf(a) < |a|
    ensures FirstLf(a + b) == FirstLf(a)
  {
    if a[0] != LF {
      assert (a + b)[1..] == a[1..] + b;
      FirstLfAppend(a[1..], b);
    }
  }

  /** One chunk more: the finished lines join those handed on, the last piece is the new rest. */
  lemma ContinueSplit(handed: seq<string>, buffered: string, output: string, chunk: string)
    requires handed + [buffered] == Split(output)
    ensures var s := Split(buffered + chunk);
      (handed + s[..|s| - 1]) + [s[|s| - 1]] == Split(output + chunk)
  {
    hide Split;
    var whole, s := Split(output), Split(buffered + chunk);
    SplitAppend(output, chunk);
    assert whole[..|whole| - 1] == handed && whole[|whole| - 1] == buffered;
    assert s == s[..|s| - 1] + [s[|s| - 1]];
    Assoc(handed, s[..|s| - 1], [s[|s| - 1]]);
  }

  /** The lines of a whole output: an empty last piece is not a line. */
  function Lines(text: string): (r: seq<string>)
    ensures Split(text) == r + [""] || (Split(text) == r && r[|r| - 1] != "")
  {
    var s := Split(text);
    if s[|s| - 1] == "" then s[..|s| - 1] else s
  }

  class JsonLineFilter {
    var buffered: string
    var handed: seq<string>  // what was passed to the sanitizer, in order
    ghost var output: string

    ghost predicate Valid()
      reads this
    {
      handed + [buffered] == Split(output)
    }

    constructor ()
      ensures Valid() && output == "" && handed == []
    {
      buffered, handed, output := "", [], "";
    }

    method OnData(chunk: string)
      requires Valid()
      modifies this
      ensures Valid() && output == old(output) + chunk
      ensures old(handed) <= handed
    {
      ContinueSplit(handed, buffered, output, chunk);
      hide Split;
      buffered := buffered + chunk;
      var lines := Split(buffered);
      buffered := lines[|lines| - 1];
      ghost var before := handed;
      for k := 0 to |lines| - 1
        invariant handed == before + lines[..k]
        invariant buffered == lines[|lines| - 1] && output == old(output)
      {
        assert lines[..k + 1] == lines[..k] + [lines[k]];
        handed := handed + [lines[k]];
      }
      output := output + chunk;
    }

    method OnEnd()
      requires Valid()
      modifies this
      ensures handed == Lines(output) && output == old(output)
    {
      assert Split(output)[..|Split(output)| - 1] == handed;
      if buffered == "" { return; }
      handed := handed + [buffered];
      buffered := "";
    }
  }

  /** Feed chunks and end: the filter as one function of its chunks. */
  method Filter(chunks: seq<string>) returns (handed: seq<string>)
    ensures handed == Lines(Concat(chunks))
    ensures Split(Concat(chunks)) == handed + [""] || (Split(Concat(chunks)) == handed && handed[|handed| - 1] != "")
  {
    var filter := new JsonLineFilter();
    for i := 0 to |chunks|
      invariant filter.Valid() && filter.output == Concat(chunks[..i]) && fresh(filter)
    {
      assert chunks[..i + 1][..i] == chunks[..i];
      filter.OnData(chunks[i]);
    }
    assert chunks[..|chunks|] == chunks;
    filter.OnEnd();
    handed := filter.handed;
  }

  function SplitChunks(chunks: seq<string>): (seq<string>, string) {
    if chunks == [] then ([], "")
    else
      var (handed, buffered) := SplitChunks(chunks[..|chunks| - 1]);
      var s := Split(buffered + chunks[|chunks| - 1]);
      (handed + s[..|s| - 1], s[|s| - 1])
  }

  /** For every way of cutting the output into chunks, even between CR and LF, what is handed on plus the
      final rest is the output split once. */
  lemma {:induction false} ChunksDoNotMatter(chunks: seq<string>)
    ensures var (handed, buffered) := SplitChunks(chunks);
      handed + [buffered] == Split(Concat(chunks))
  {
    if chunks != [] {
      var init, chunk := chunks[..|chunks| - 1], chunks[|chunks| - 1];
      ChunksDoNotMatter(init);
      hide Split;
      ContinueSplit(SplitChunks(init).0, SplitChunks(init).1, Concat(init), chunk);
    }
  }
}
