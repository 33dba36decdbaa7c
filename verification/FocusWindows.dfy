/** `extractFocusedText` (extensions/web-tools/parse.ts): the windows around the hits of each focus term,
    and the merging of windows at most 200 characters apart. */
module FocusWindows {
  import opened Sequences
  import opened Sorting

  datatype Range = Range(start: nat, end: nat, term: string)
  datatype Window = Window(start: nat, end: nat, terms: seq<string>)

  const GAP: nat := 200
  const MAX_HITS: nat := 3

  // ---------------------------------------------------------------- hits

  predicate OccursAt(text: string, needle: string, i: nat) {
    i + |needle| <= |text| && text[i..i + |needle|] == needle
  }

  /** `text.indexOf(needle, from)`. */
  function IndexOf(text: string, needle: string, from: nat): (r: Option<nat>)
    ensures r.Some? ==> from <= r.value && OccursAt(text, needle, r.value)
    ensures r.Some? ==> forall k :: from <= k < r.value ==> !OccursAt(text, needle, k)
    ensures r.None? ==> forall k :: from <= k ==> !OccursAt(text, needle, k)
    decreases |text| - from
  {
    if OccursAt(text, needle, from) then Some(from)
    else if from >= |text| then None
    else IndexOf(text, needle, from + 1)
  }

  /** Where the search for the next hit resumes. */
  function Resume(needle: string, hits: seq<nat>): nat {
    if hits == [] then 0 else hits[|hits| - 1] + |needle|
  }

  /** The first `MAX_HITS` occurrences from left to right that do not overlap. */
  ghost predicate FirstHits(text: string, needle: string, hits: seq<nat>) {
    && |hits| <= MAX_HITS
    && (forall i :: 0 <= i < |hits| ==>
          && Resume(needle, hits[..i]) <= hits[i] && OccursAt(text, needle, hits[i])
          && forall k :: Resume(needle, hits[..i]) <= k < hits[i] ==> !OccursAt(text, needle, k))
    && (|hits| < MAX_HITS ==> needle == "" || forall k :: Resume(needle, hits) <= k ==> !OccursAt(text, needle, k))
    && (needle == "" ==> hits == [])
  }

  function WindowAround(textLength: nat, index: nat, term: string, contextChars: nat): Range {
    Range(if index >= contextChars then index - contextChars else 0,
          if index + |term| + contextChars <= textLength then index + |term| + contextChars else textLength,
          term)
  }

  function Windows(textLength: nat, hits: seq<nat>, term: string, contextChars: nat): (r: seq<Range>)
    ensures |r| == |hits| && forall i :: 0 <= i < |r| ==> r[i] == WindowAround(textLength, hits[i], term, contextChars)
  {
    seq(|hits|, i requires 0 <= i < |hits| => WindowAround(textLength, hits[i], term, contextChars))
  }

  predicate Holds(r: Range, p: nat) {
    r.start <= p < r.end
  }

  /** `p` is a position of the text in the hit or at most `contextChars` away from it. */
  predicate Near(textLength: nat, hit: nat, term: string, contextChars: nat, p: nat) {
    p < textLength && hit <= p + contextChars && p < hit + |term| + contextChars
  }

  /** A window holds its hit, every position of the text at most `contextChars` away from it, and no other. */
  lemma WindowSurrounds(textLength: nat, index: nat, term: string, contextChars: nat, p: nat)
    ensures var r := WindowAround(textLength, index, term, contextChars);
      r.term == term && (Holds(r, p) <==> Near(textLength, index, term, contextChars, p))
  {
  }

  /** The hits of one needle. */
  method FindHits(lower: string, needle: string) returns (hits: seq<nat>)
    ensures FirstHits(lower, needle, hits)
  {
    hits := [];
    var from := 0;
    var matches := 0;
    if needle == "" { return; }
    while matches < MAX_HITS
      invariant matches == |hits| <= MAX_HITS && from == Resume(needle, hits)
      invariant forall i :: 0 <= i < |hits| ==>
        && Resume(needle, hits[..i]) <= hits[i] && OccursAt(lower, needle, hits[i])
        && forall k :: Resume(needle, hits[..i]) <= k < hits[i] ==> !OccursAt(lower, needle, k)
      decreases MAX_HITS - matches
    {
      var index := IndexOf(lower, needle, from);
      if index.None? { break; }
      ghost var before := hits;
      hits := hits + [index.value];
      assert hits[..|before|] == before;
      assert forall i :: 0 <= i < |before| ==> hits[..i] == before[..i];
      from := index.value + |needle|;
      matches := matches + 1;
    }
  }

  /** `ranges` continues `before` with the windows around the first hits of `term`. */
  ghost predicate Continues(
      lower: string, textLength: nat, term: string, lowerCase: string -> string, contextChars: nat,
      before: seq<Range>, hits: seq<nat>, ranges: seq<Range>)
  {
    && FirstHits(lower, lowerCase(term), hits)
    && ranges == before + Windows(textLength, hits, term, contextChars)
  }

  function LastTerm(terms: seq<string>): string
    requires terms != []
  {
    terms[|terms| - 1]
  }

  /** The ranges of all terms: for each term in turn, the windows around its first hits. */
  ghost predicate RangesOf(
      lower: string, textLength: nat, terms: seq<string>, lowerCase: string -> string, contextChars: nat,
      ranges: seq<Range>)
  {
    if terms == [] then ranges == []
    else
      exists hits, before ::
        && Continues(lower, textLength, LastTerm(terms), lowerCase, contextChars, before, hits, ranges)
        && RangesOf(lower, textLength, terms[..|terms| - 1], lowerCase, contextChars, before)
  }

  method CollectRanges(text: string, terms: seq<string>, lowerCase: string -> string, contextChars: nat)
    returns (ranges: seq<Range>)
    ensures RangesOf(lowerCase(text), |text|, terms, lowerCase, contextChars, ranges)
  {
    var lower := lowerCase(text);
    ranges := [];
    for i := 0 to |terms|
      invariant RangesOf(lower, |text|, terms[..i], lowerCase, contextChars, ranges)
    {
      var hits := FindHits(lower, lowerCase(terms[i]));
      assert terms[..i + 1][..|terms[..i + 1]| - 1] == terms[..i] && LastTerm(terms[..i + 1]) == terms[i];
      ghost var before := ranges;
      ranges := ranges + Windows(|text|, hits, terms[i], contextChars);
      assert Continues(lower, |text|, terms[i], lowerCase, contextChars, before, hits, ranges);
    }
    assert terms[..|terms|] == terms;
  }

  lemma HitIsFirst(text: string, needle: string, hits: seq<nat>, i: nat)
    requires FirstHits(text, needle, hits) && i < |hits|
    ensures Resume(needle, hits[..i]) <= hits[i] && OccursAt(text, needle, hits[i])
    ensures forall k :: Resume(needle, hits[..i]) <= k < hits[i] ==> !OccursAt(text, needle, k)
    ensures needle != "" && i < MAX_HITS
  {
  }

  lemma NoHitAfter(text: string, needle: string, hits: seq<nat>)
    requires FirstHits(text, needle, hits) && |hits| < MAX_HITS && needle != ""
    ensures forall k :: Resume(needle, hits) <= k ==> !OccursAt(text, needle, k)
  {
  }

  /** First hits agree as far as both go. */
  lemma {:induction false} HitsAgree(text: string, needle: string, a: seq<nat>, b: seq<nat>, i: nat)
    requires FirstHits(text, needle, a) && FirstHits(text, needle, b) && i <= |a| && i <= |b|
    ensures a[..i] == b[..i]
  {
    hide FirstHits, OccursAt;
    if i > 0 {
      HitsAgree(text, needle, a, b, i - 1);
      HitIsFirst(text, needle, a, i - 1);
      HitIsFirst(text, needle, b, i - 1);
      assert a[..i] == a[..i - 1] + [a[i - 1]] && b[..i] == b[..i - 1] + [b[i - 1]];
    }
  }

  lemma HitsNoLonger(text: string, needle: string, a: seq<nat>, b: seq<nat>)
    requires FirstHits(text, needle, a) && FirstHits(text, needle, b)
    ensures |b| <= |a|
  {
    hide FirstHits, OccursAt;
    HitsAgree(text, needle, a, b, Min(|a|, |b|));
    assert a[..|a|] == a;
    if |a| < |b| {
      HitIsFirst(text, needle, b, |a|);
      NoHitAfter(text, needle, a);
    }
  }

  lemma HitsUnique(text: string, needle: string, a: seq<nat>, b: seq<nat>)
    requires FirstHits(text, needle, a) && FirstHits(text, needle, b)
    ensures a == b
  {
    HitsNoLonger(text, needle, a, b);
    HitsNoLonger(text, needle, b, a);
    HitsAgree(text, needle, a, b, |a|);
    assert a[..|a|] == a && b[..|b|] == b;
  }

  /** The text, the terms, the lower-casing and the context determine the ranges. */
  lemma {:induction false} RangesUnique(
      lower: string, textLength: nat, terms: seq<string>, lowerCase: string -> string, contextChars: nat,
      a: seq<Range>, b: seq<Range>)
    requires RangesOf(lower, textLength, terms, lowerCase, contextChars, a)
    requires RangesOf(lower, textLength, terms, lowerCase, contextChars, b)
    ensures a == b
  {
    if terms != [] {
      var init, last := terms[..|terms| - 1], LastTerm(terms);
      var hits, before :|
        && Continues(lower, textLength, last, lowerCase, contextChars, before, hits, a)
        && RangesOf(lower, textLength, init, lowerCase, contextChars, before);
      var hits', before' :|
        && Continues(lower, textLength, last, lowerCase, contextChars, before', hits', b)
        && RangesOf(lower, textLength, init, lowerCase, contextChars, before');
      RangesUnique(lower, textLength, init, lowerCase, contextChars, before, before');
      HitsUnique(lower, lowerCase(last), hits, hits');
    }
  }

  /** `r` surrounds a hit of its own term: it holds exactly the positions of the text that are part of the hit or
      at most `contextChars` away from it. */
  ghost predicate Surrounds(
      lower: string, textLength: nat, lowerCase: string -> string, contextChars: nat, r: Range, hit: nat)
  {
    && OccursAt(lower, lowerCase(r.term), hit)
    && forall p: nat :: Holds(r, p) <==> Near(textLength, hit, r.term, contextChars, p)
  }

  /** Every range surrounds a hit of its term. */
  lemma {:induction false} RangesSurround(
      lower: string, textLength: nat, terms: seq<string>, lowerCase: string -> string, contextChars: nat,
      ranges: seq<Range>, r: Range)
    requires RangesOf(lower, textLength, terms, lowerCase, contextChars, ranges) && r in ranges
    ensures r.term in terms
    ensures exists hit :: Surrounds(lower, textLength, lowerCase, contextChars, r, hit)
  {
    var init, last := terms[..|terms| - 1], LastTerm(terms);
    var hits, before :|
      && Continues(lower, textLength, last, lowerCase, contextChars, before, hits, ranges)
      && RangesOf(lower, textLength, init, lowerCase, contextChars, before);
    if r in before {
      RangesSurround(lower, textLength, init, lowerCase, contextChars, before, r);
    } else {
      var i :| 0 <= i < |hits| && r == WindowAround(textLength, hits[i], last, contextChars);
      forall p: nat ensures Holds(r, p) <==> Near(textLength, hits[i], last, contextChars, p) {
        WindowSurrounds(textLength, hits[i], last, contextChars, p);
      }
      assert last in terms && r.term == last;
      assert Surrounds(lower, textLength, lowerCase, contextChars, r, hits[i]);
    }
  }

  /** Ranges end inside a text of `n` characters, and one that is reversed ends at the end of the text. */
  ghost predicate Tame(ranges: set<Range>, n: nat) {
    forall r :: r in ranges ==> r.end <= n && (r.start <= r.end || r.end == n)
  }

  /** Every range ends inside the text and starts inside the lower-cased one; it is reversed only when it
      starts behind the end of the text, which takes a lower-casing that lengthens the text. */
  lemma {:induction false} RangesAreTame(
      lower: string, textLength: nat, terms: seq<string>, lowerCase: string -> string, contextChars: nat,
      ranges: seq<Range>)
    requires RangesOf(lower, textLength, terms, lowerCase, contextChars, ranges)
    ensures Tame(Elements(ranges), textLength)
    ensures forall r :: r in ranges ==> r.start <= |lower| && r.term in terms
    ensures |lower| <= textLength ==> forall r :: r in ranges ==> r.start <= r.end
  {
    if terms != [] {
      var init, last := terms[..|terms| - 1], LastTerm(terms);
      var hits, before :|
        && Continues(lower, textLength, last, lowerCase, contextChars, before, hits, ranges)
        && RangesOf(lower, textLength, init, lowerCase, contextChars, before);
      RangesAreTame(lower, textLength, init, lowerCase, contextChars, before);
      assert last in terms;
      forall r | r in ranges
        ensures r.start <= |lower| && r.term in terms
        ensures r.end <= textLength && (r.start <= r.end || r.end == textLength)
      {
        if r !in before {
          var i :| 0 <= i < |hits| && r == WindowAround(textLength, hits[i], last, contextChars);
          assert OccursAt(lower, lowerCase(last), hits[i]);
        }
      }
    }
  }

  // ---------------------------------------------------------------- merging

  predicate Inside(r: Range, w: Window) {
    w.start <= r.start && r.end <= w.end
  }

  predicate ByPosition(a: Range, b: Range) {
    a.start < b.start || (a.start == b.start && a.end <= b.end)
  }

  ghost predicate HasTerm(ranges: set<Range>, w: Window, t: string) {
    exists r :: r in ranges && Inside(r, w) && r.term == t
  }

  /** `r` is reached from an earlier range of the same window across a small gap. */
  ghost predicate Reached(ranges: set<Range>, w: Window, r: Range) {
    exists q :: q in ranges && Inside(q, w) && q.start < r.start <= q.end + GAP
  }

  ghost predicate StartsAt(ranges: set<Range>, w: Window) {
    exists r :: r in ranges && Inside(r, w) && r.start == w.start
  }

  ghost predicate EndsAt(ranges: set<Range>, w: Window) {
    exists r :: r in ranges && Inside(r, w) && r.end == w.end
  }

  /** A window that its ranges justify: its ends are ends of ranges, no gap wider than GAP is bridged, and
      its terms are, once each, those of the ranges it contains. */
  ghost predicate Justified(ranges: set<Range>, w: Window) {
    && w.start <= w.end
    && StartsAt(ranges, w) && EndsAt(ranges, w)
    && (forall r :: r in ranges && Inside(r, w) && r.start > w.start ==> Reached(ranges, w, r))
    && Distinct(w.terms)
    && (forall t :: t in w.terms <==> HasTerm(ranges, w, t))
  }

  ghost predicate Covered(ranges: set<Range>, merged: seq<Window>) {
    forall r :: r in ranges ==> exists w :: w in merged && Inside(r, w)
  }

  /** Windows in order, more than GAP apart. */
  ghost predicate Spaced(merged: seq<Window>) {
    forall i, j :: 0 <= i < j < |merged| ==> merged[i].end + GAP < merged[j].start
  }

  ghost predicate MergeOf(ranges: set<Range>, merged: seq<Window>) {
    Spaced(merged) && Covered(ranges, merged) && forall w :: w in merged ==> Justified(ranges, w)
  }

  /** An earlier range reaches `r` across a small gap. */
  ghost predicate AnchoredAt(ranges: set<Range>, r: Range) {
    exists q :: q in ranges && q.start < r.start <= q.end + GAP
  }

  ghost predicate Anchored(ranges: set<Range>) {
    forall r :: r in ranges && r.start > r.end ==> AnchoredAt(ranges, r)
  }

  ghost predicate Bounded(merged: seq<Window>, n: nat) {
    forall w :: w in merged ==> w.start <= w.end <= n
  }

  lemma MergeIsBounded(ranges: set<Range>, merged: seq<Window>, n: nat)
    requires MergeOf(ranges, merged) && Tame(ranges, n)
    ensures Bounded(merged, n)
  {
    hide Reached, HasTerm, StartsAt, Covered, Spaced, Distinct;
    forall w | w in merged ensures w.start <= w.end <= n {
      var r :| r in ranges && Inside(r, w) && r.end == w.end;
    }
  }

  /** A merge has room for reversed ranges only if an earlier range reaches each of them. */
  lemma MergeNeedsAnchors(ranges: set<Range>, merged: seq<Window>, n: nat)
    requires MergeOf(ranges, merged) && Tame(ranges, n)
    ensures Anchored(ranges)
  {
    hide Justified, Spaced, Reached, AnchoredAt;
    MergeIsBounded(ranges, merged, n);
    forall r | r in ranges && r.start > r.end ensures AnchoredAt(ranges, r) {
      var w := WindowOf(ranges, merged, r);
      var q := ReachedFrom(ranges, w, r);
      assert AnchoredAt(ranges, r) by { AnchoredBy(ranges, q, r); }
    }
  }

  lemma AnchoredBy(ranges: set<Range>, q: Range, r: Range)
    requires q in ranges && q.start < r.start <= q.end + GAP
    ensures AnchoredAt(ranges, r)
  {
  }

  /** A range far behind a window changes nothing about it. */
  lemma JustifiedBefore(ranges: set<Range>, w: Window, r: Range)
    requires Justified(ranges, w) && w.end < r.end
    ensures Justified(ranges + {r}, w)
  {
    var more := ranges + {r};
    assert forall q :: q in more && Inside(q, w) <==> q in ranges && Inside(q, w);
    forall q | q in more && Inside(q, w) && q.start > w.start ensures Reached(more, w, q) {
      assert Reached(ranges, w, q);
    }
    forall t ensures t in w.terms <==> HasTerm(more, w, t) {
      assert HasTerm(ranges, w, t) <==> HasTerm(more, w, t);
    }
    assert StartsAt(more, w) && EndsAt(more, w);
  }

  function Opened(r: Range): Window {
    Window(r.start, r.end, [r.term])
  }

  function Extended(w: Window, r: Range): Window {
    Window(w.start, if r.end > w.end then r.end else w.end, if r.term in w.terms then w.terms else w.terms + [r.term])
  }

  /** A new window holds just its range. */
  lemma OpenedJustified(ranges: set<Range>, r: Range)
    requires r.start <= r.end && forall q :: q in ranges ==> q.start < r.start
    ensures Justified(ranges + {r}, Opened(r))
  {
    var more, w := ranges + {r}, Opened(r);
    assert r in more && Inside(r, w);
    forall q | q in more && Inside(q, w) ensures q == r {
    }
    forall t ensures t in w.terms <==> HasTerm(more, w, t) {
    }
  }

  /** Extending a window keeps every range it held and adds exactly `r`. */
  lemma ExtendedHolds(ranges: set<Range>, w: Window, r: Range, q: Range)
    requires w.start <= r.start <= w.end + GAP && q in ranges
    requires forall p :: p in ranges ==> Inside(p, w) || p.start <= p.end < w.start
    ensures Inside(q, Extended(w, r)) <==> Inside(q, w)
    ensures Inside(r, Extended(w, r))
  {
  }

  lemma ExtendedJustified(ranges: set<Range>, w: Window, r: Range)
    requires Justified(ranges, w) && w.start <= r.start <= w.end + GAP
    requires forall q :: q in ranges ==> q.start <= r.start && (Inside(q, w) || q.start <= q.end < w.start)
    ensures Justified(ranges + {r}, Extended(w, r))
  {
    var more, e := ranges + {r}, Extended(w, r);
    assert r in more && Inside(r, e);
    forall q | q in ranges ensures Inside(q, e) <==> Inside(q, w) {
      ExtendedHolds(ranges, w, r, q);
    }
    ExtendedEnds(ranges, w, r);
    forall q | q in more && Inside(q, e) && q.start > e.start ensures Reached(more, e, q) {
      if q in ranges {
        assert Reached(ranges, w, q);
        var p :| p in ranges && Inside(p, w) && p.start < q.start <= p.end + GAP;
        assert p in more && Inside(p, e);
      } else {
        ExtendedReached(ranges, w, r);
      }
    }
    forall t ensures t in e.terms <==> HasTerm(more, e, t) {
      if HasTerm(ranges, w, t) {
        var q :| q in ranges && Inside(q, w) && q.term == t;
        assert q in more && Inside(q, e);
      }
      if HasTerm(more, e, t) && t != r.term {
        var q :| q in more && Inside(q, e) && q.term == t;
        assert q in ranges && Inside(q, w);
      }
    }
  }

  lemma ExtendedEnds(ranges: set<Range>, w: Window, r: Range)
    requires StartsAt(ranges, w) && EndsAt(ranges, w) && w.start <= r.start
    ensures StartsAt(ranges + {r}, Extended(w, r)) && EndsAt(ranges + {r}, Extended(w, r))
  {
    var more, e := ranges + {r}, Extended(w, r);
    var a :| a in ranges && Inside(a, w) && a.start == w.start;
    var b :| b in ranges && Inside(b, w) && b.end == w.end;
    assert a in more && Inside(a, e) && b in more && Inside(b, e) && r in more && Inside(r, e);
  }

  /** The new range is reached from the one at the old end, or from whatever reached that one. */
  lemma ExtendedReached(ranges: set<Range>, w: Window, r: Range)
    requires Justified(ranges, w) && w.start < r.start <= w.end + GAP
    requires forall q :: q in ranges ==> q.start <= r.start
    ensures Reached(ranges + {r}, Extended(w, r), r)
  {
    var more, e := ranges + {r}, Extended(w, r);
    var b :| b in ranges && Inside(b, w) && b.end == w.end;
    assert b in more && Inside(b, e);
    if b.start >= r.start {
      assert Reached(ranges, w, b);
      var p :| p in ranges && Inside(p, w) && p.start < b.start <= p.end + GAP;
      assert p in more && Inside(p, e);
    }
  }

  lemma MergeIsOrdered(ranges: set<Range>, merged: seq<Window>, w: Window)
    requires MergeOf(ranges, merged) && w in merged
    ensures w.start <= w.end
  {
    hide Reached, HasTerm, StartsAt, EndsAt, Covered, Spaced, Distinct;
  }

  lemma FarBehind(done: set<Range>, merged: seq<Window>, start: nat, q: Range)
    requires MergeOf(done, merged) && q in done && forall w :: w in merged ==> w.end + GAP < start
    ensures q.start < start
  {
    hide Justified, Spaced, Reached;
    var w := WindowOf(done, merged, q);
    assert w.start <= w.end by { MergeIsOrdered(done, merged, w); }
    if q.start > w.start {
      var p := ReachedFrom(done, w, q);
    }
  }

  lemma OpenKeeps(done: set<Range>, merged: seq<Window>, r: Range)
    requires MergeOf(done, merged) && r.start <= r.end
    requires forall w :: w in merged ==> w.end + GAP < r.start
    ensures MergeOf(done + {r}, merged + [Opened(r)])
  {
    hide MergeOf, Opened;
    forall q | q in done ensures q.start < r.start {
      FarBehind(done, merged, r.start, q);
    }
    OpenBehindAll(done, merged, r);
  }

  lemma OpenBehindAll(done: set<Range>, merged: seq<Window>, r: Range)
    requires MergeOf(done, merged) && r.start <= r.end && forall q :: q in done ==> q.start < r.start
    requires forall w :: w in merged ==> w.end + GAP < r.start
    ensures MergeOf(done + {r}, merged + [Opened(r)])
  {
    hide Justified;
    var more, result := done + {r}, merged + [Opened(r)];
    OpenedJustified(done, r);
    forall w | w in merged ensures Justified(more, w) {
      JustifiedBefore(done, w, r);
    }
    forall q | q in more ensures exists w :: w in result && Inside(q, w) {
      if q in done {
        var w :| w in merged && Inside(q, w);
        assert w in result;
      } else {
        assert Opened(r) in result && Inside(r, Opened(r));
      }
    }
    forall i | 0 <= i < |merged| ensures result[i].end + GAP < r.start {
      assert result[i] in merged;
    }
  }

  lemma ExtendKeeps(done: set<Range>, merged: seq<Window>, r: Range, n: nat)
    requires MergeOf(done, merged) && Tame(done, n) && Tame({r}, n) && merged != []
    requires forall q :: q in done ==> q.start <= r.start
    requires r.start <= merged[|merged| - 1].end + GAP
    ensures MergeOf(done + {r}, merged[..|merged| - 1] + [Extended(merged[|merged| - 1], r)])
  {
    hide Reached, HasTerm, StartsAt, EndsAt, Distinct;
    var k := |merged| - 1;
    var last, early := merged[k], merged[..k];
    var more, result := done + {r}, early + [Extended(last, r)];
    assert last in merged && r in {r};
    MergeIsBounded(done, merged, n);
    LastStartsBefore(done, last, r);
    forall q | q in done ensures Inside(q, last) || q.start <= q.end < last.start {
      WhereInside(done, merged, q, n);
    }
    ExtendedJustified(done, last, r);
    forall w | w in early ensures Justified(more, w) && w.end + GAP < last.start {
      var i :| 0 <= i < k && merged[i] == w;
      assert w in merged;
      JustifiedBefore(done, w, r);
    }
    hide Justified, Extended;
    assert Inside(r, Extended(last, r)) by { InsideExtended(last, r); }
    forall q | q in more ensures exists w :: w in result && Inside(q, w) {
      assert Extended(last, r) in result && Inside(r, Extended(last, r));
      if q in done {
        var w :| w in merged && Inside(q, w);
        if w == last { InsideStays(last, r, q); } else { assert w in early && w in result; }
      }
    }
    SpacedAfter(merged, r);
  }

  /** What an earlier range reaches, the last window reaches. */
  lemma AnchorReaches(done: set<Range>, merged: seq<Window>, r: Range, n: nat)
    requires MergeOf(done, merged) && Tame(done, n) && AnchoredAt(done, r)
    ensures merged != [] && r.start <= merged[|merged| - 1].end + GAP
  {
    hide Justified;
    MergeIsBounded(done, merged, n);
    var q :| q in done && q.start < r.start <= q.end + GAP;
    var w := WindowOf(done, merged, q);
    hide Covered, Tame;
    var i :| 0 <= i < |merged| && merged[i] == w;
    assert merged[|merged| - 1] in merged;
  }

  lemma InsideExtended(w: Window, r: Range)
    requires w.start <= r.start
    ensures Inside(r, Extended(w, r))
  {
  }

  lemma InsideStays(w: Window, r: Range, q: Range)
    requires Inside(q, w)
    ensures Inside(q, Extended(w, r))
  {
  }

  lemma SpacedAfter(merged: seq<Window>, r: Range)
    requires merged != [] && Spaced(merged)
    ensures Spaced(merged[..|merged| - 1] + [Extended(merged[|merged| - 1], r)])
  {
  }

  lemma LastStartsBefore(done: set<Range>, last: Window, r: Range)
    requires Justified(done, last) && forall q :: q in done ==> q.start <= r.start
    ensures last.start <= r.start
  {
    var a :| a in done && Inside(a, last) && a.start == last.start;
  }

  lemma WhereInside(done: set<Range>, merged: seq<Window>, q: Range, n: nat)
    requires Covered(done, merged) && Spaced(merged) && Bounded(merged, n) && Tame(done, n) && q in done && merged != []
    ensures Inside(q, merged[|merged| - 1]) || q.start <= q.end < merged[|merged| - 1].start
  {
    var w :| w in merged && Inside(q, w);
    var i :| 0 <= i < |merged| && merged[i] == w;
    assert merged[|merged| - 1] in merged;
  }

  /** Windows that end far enough before the last one, or are the last one. */
  lemma AllFarBefore(done: set<Range>, merged: seq<Window>, start: nat)
    requires MergeOf(done, merged) && merged != [] && merged[|merged| - 1].end + GAP < start
    ensures forall w :: w in merged ==> w.end + GAP < start
  {
    hide Reached, HasTerm, StartsAt, EndsAt;
    assert merged[|merged| - 1] in merged;
    forall w | w in merged ensures w.end + GAP < start {
      var k :| 0 <= k < |merged| && merged[k] == w;
    }
  }

  lemma NextOfSorted(sorted: seq<Range>, i: nat)
    requires i < |sorted| && Sorted(sorted, ByPosition)
    ensures Elements(sorted[..i + 1]) == Elements(sorted[..i]) + {sorted[i]}
    ensures forall q :: q in Elements(sorted[..i]) ==> q in sorted && q.start <= sorted[i].start
  {
    assert sorted[..i + 1] == sorted[..i] + [sorted[i]];
    forall q | q in Elements(sorted[..i]) ensures q in sorted && q.start <= sorted[i].start {
      var k :| 0 <= k < i && sorted[k] == q;
      assert ByPosition(sorted[k], sorted[i]);
    }
  }

  lemma AnchoredSoFar(sorted: seq<Range>, i: nat)
    requires Sorted(sorted, ByPosition) && i < |sorted| && Anchored(Elements(sorted)) && sorted[i].start > sorted[i].end
    ensures AnchoredAt(Elements(sorted[..i]), sorted[i])
  {
    assert sorted[i] in Elements(sorted);
    var q :| q in Elements(sorted) && q.start < sorted[i].start <= q.end + GAP;
    var k :| 0 <= k < |sorted| && sorted[k] == q;
    assert k > i ==> ByPosition(sorted[i], sorted[k]);
    assert q in sorted[..i];
  }

  function Stepped(merged: seq<Window>, r: Range): seq<Window> {
    if merged != [] && r.start <= merged[|merged| - 1].end + GAP
    then merged[..|merged| - 1] + [Extended(merged[|merged| - 1], r)]
    else merged + [Opened(r)]
  }

  lemma SteppedKeeps(sorted: seq<Range>, i: nat, merged: seq<Window>, n: nat)
    requires Tame(Elements(sorted), n) && Sorted(sorted, ByPosition) && Anchored(Elements(sorted)) && i < |sorted|
    requires MergeOf(Elements(sorted[..i]), merged)
    ensures MergeOf(Elements(sorted[..i + 1]), Stepped(merged, sorted[i]))
  {
    hide MergeOf, Sorted, Elements, ByPosition, Opened, Extended, Anchored, AnchoredAt, Tame;
    var range, done := sorted[i], Elements(sorted[..i]);
    NextOfSorted(sorted, i);
    TameParts(sorted, i, n);
    if merged != [] && range.start <= merged[|merged| - 1].end + GAP {
      ExtendKeeps(done, merged, range, n);
    } else {
      if range.start > range.end {
        AnchoredSoFar(sorted, i);
        AnchorReaches(done, merged, range, n);
      }
      if merged != [] { AllFarBefore(done, merged, range.start); }
      OpenKeeps(done, merged, range);
    }
  }

  /** The merging loop, on ranges in order of position: it merges exactly when every reversed range is
      reached by an earlier one. */
  method Merge(sorted: seq<Range>, ghost n: nat) returns (merged: seq<Window>)
    requires Tame(Elements(sorted), n) && Sorted(sorted, ByPosition)
    ensures MergeOf(Elements(sorted), merged) <==> Anchored(Elements(sorted))
  {
    merged := [];
    for i := 0 to |sorted|
      invariant Anchored(Elements(sorted)) ==> MergeOf(Elements(sorted[..i]), merged)
    {
      hide MergeOf, Sorted, Elements, ByPosition, Opened, Extended, Anchored, Tame;
      if Anchored(Elements(sorted)) { SteppedKeeps(sorted, i, merged, n); }
      var range := sorted[i];
      if merged != [] && range.start <= merged[|merged| - 1].end + GAP {
        merged := merged[..|merged| - 1] + [Extended(merged[|merged| - 1], range)];
      } else {
        merged := merged + [Opened(range)];
      }
    }
    assert sorted[..|sorted|] == sorted;
    hide MergeOf, Sorted, Elements, Anchored, Tame;
    if MergeOf(Elements(sorted), merged) { MergeNeedsAnchors(Elements(sorted), merged, n); }
  }

  lemma TameParts(sorted: seq<Range>, i: nat, n: nat)
    requires Tame(Elements(sorted), n) && i < |sorted|
    ensures Tame(Elements(sorted[..i]), n) && Tame({sorted[i]}, n)
  {
    assert forall r :: r in Elements(sorted[..i]) ==> r in Elements(sorted);
    assert sorted[i] in Elements(sorted);
  }

  // ---------------------------------------------------------------- what merging means

  lemma ByPositionIsPreorder()
    ensures TotalPreorder(ByPosition)
  {
  }

  /** Collect, sort and merge. The windows are a merge of the ranges, inside the text, exactly when every
      reversed range is reached by an earlier one: always, if lower-casing does not lengthen the text. */
  method FocusRanges(text: string, terms: seq<string>, lowerCase: string -> string, contextChars: nat)
    returns (ranges: seq<Range>, merged: seq<Window>)
    ensures RangesOf(lowerCase(text), |text|, terms, lowerCase, contextChars, ranges)
    ensures MergeOf(Elements(ranges), merged) <==> Anchored(Elements(ranges))
    ensures MergeOf(Elements(ranges), merged) ==> Bounded(merged, |text|)
    ensures |lowerCase(text)| <= |text| ==> Anchored(Elements(ranges))
  {
    hide MergeOf, RangesOf, Tame;
    ranges := CollectRanges(text, terms, lowerCase, contextChars);
    RangesAreTame(lowerCase(text), |text|, terms, lowerCase, contextChars, ranges);
    ByPositionIsPreorder();
    SortBySorts(ranges, ByPosition);
    var sorted := SortBy(ranges, ByPosition);
    assert Elements(sorted) == Elements(ranges);
    merged := Merge(sorted, |text|);
    if MergeOf(Elements(ranges), merged) { MergeIsBounded(Elements(ranges), merged, |text|); }
  }

  function Rep(s: string, n: nat): (r: string)
    ensures forall x :: x in r ==> x in s
  {
    if n == 0 then "" else s + Rep(s, n - 1)
  }

  lemma {:induction false} RepLengths(n: nat)
    ensures |Rep("\U{0130}", n)| == n && |Rep("i\U{0307}", n)| == 2 * n
  {
    if n > 0 { RepLengths(n - 1); }
  }

  /** The one place where "xy" occurs behind a text without an x. */
  lemma OneHit(before: string, k: nat)
    requires 'x' !in before
    ensures OccursAt(before + "xy", "xy", k) <==> k == |before|
  {
    var lower := before + "xy";
    assert forall i :: 0 <= i < |before| ==> lower[i] == before[i] && lower[i] in before;
    if k + 2 <= |lower| { assert lower[k..k + 2] == [lower[k], lower[k + 1]]; }
  }

  /** A lower-casing that lengthens the text can put a hit behind its end, whatever the context: its window is
      reversed, and what `slice` cuts from it is empty. */
  lemma StrayHit(c: nat)
    ensures var text, lowered := Rep("\U{0130}", c + 3) + "xy", Rep("i\U{0307}", c + 3) + "xy";
      var lowerCase := (s: string) => if s == text then lowered else s;
      var ranges := [Range(c + 6, c + 5, "xy")];
      && RangesOf(lowerCase(text), |text|, ["xy"], lowerCase, c, ranges)
      && !Anchored(Elements(ranges))
  {
    var before := Rep("i\U{0307}", c + 3);
    var text, lowered := Rep("\U{0130}", c + 3) + "xy", before + "xy";
    var lowerCase := (s: string) => if s == text then lowered else s;
    var ranges := [Range(c + 6, c + 5, "xy")];
    RepLengths(c + 3);
    forall k: nat ensures OccursAt(lowered, "xy", k) <==> k == 2 * c + 6 { OneHit(before, k); }
    hide OccursAt, Rep;
    var hits: seq<nat> := [2 * c + 6];
    assert FirstHits(lowered, "xy", hits);
    assert lowerCase("xy") == "xy" && LastTerm(["xy"]) == "xy" && ["xy"][..0] == [];
    assert Windows(|text|, hits, "xy", c) == ranges;
    assert Continues(lowered, |text|, "xy", lowerCase, c, [], hits, ranges);
    assert RangesOf(lowered, |text|, [], lowerCase, c, []);
    assert Range(c + 6, c + 5, "xy") in Elements(ranges);
  }

  lemma SameWindow(merged: seq<Window>, u: Window, v: Window, r: Range, n: nat)
    requires Spaced(merged) && Bounded(merged, n) && Tame({r}, n) && u in merged && v in merged
    requires Inside(r, u) && Inside(r, v)
    ensures u == v
  {
    var i :| 0 <= i < |merged| && merged[i] == u;
    var j :| 0 <= j < |merged| && merged[j] == v;
    assert r in {r};
  }

  /** Every range, reversed or not, lies in exactly one merged window, and no window comes twice. */
  lemma ExactlyOneWindow(ranges: set<Range>, merged: seq<Window>, r: Range, n: nat)
    requires MergeOf(ranges, merged) && Tame(ranges, n) && r in ranges
    ensures exists w :: w in merged && Inside(r, w)
    ensures forall u, v :: u in merged && v in merged && Inside(r, u) && Inside(r, v) ==> u == v
    ensures Distinct(merged)
  {
    hide Justified, Inside;
    MergeIsBounded(ranges, merged, n);
    var w := WindowOf(ranges, merged, r);
    assert Tame({r}, n);
    hide Covered, Spaced, Bounded, Tame, Distinct;
    forall u, v | u in merged && v in merged && Inside(r, u) && Inside(r, v) ensures u == v {
      SameWindow(merged, u, v, r, n);
    }
    WindowsDiffer(merged, n);
  }

  lemma WindowsDiffer(merged: seq<Window>, n: nat)
    requires Spaced(merged) && Bounded(merged, n)
    ensures Distinct(merged)
  {
    forall i, j | 0 <= i < j < |merged| ensures merged[i] != merged[j] {
      assert merged[i] in merged;
    }
  }

  lemma WithinBounds(merged: seq<Window>, n: nat, w: Window)
    requires Bounded(merged, n) && w in merged
    ensures w.start <= w.end <= n
  {
  }

  /** No two ways of merging: a window of one merge is a window of the other, up to the order of terms. */
  lemma MergeIsUnique(ranges: set<Range>, a: seq<Window>, b: seq<Window>, w: Window, n: nat)
    requires Tame(ranges, n) && MergeOf(ranges, a) && MergeOf(ranges, b) && w in a
    ensures exists v :: v in b && v.start == w.start && v.end == w.end && forall t :: t in w.terms <==> t in v.terms
  {
    hide Justified, Spaced, Covered, Tame, Bounded, Inside;
    MergeIsBounded(ranges, a, n);
    MergeIsBounded(ranges, b, n);
    var first := FirstOf(ranges, w);
    var v := WindowOf(ranges, b, first);
    var first' := FirstOf(ranges, v);
    WithinBounds(a, n, w);
    WithinBounds(b, n, v);
    SharedWindow(ranges, a, first, v, w, first', n);
    forall r | r in ranges ensures Inside(r, w) <==> Inside(r, v) {
      if Inside(r, w) { StaysTogether(ranges, b, w, v, first, r, n); }
      if Inside(r, v) { StaysTogether(ranges, a, v, w, first', r, n); }
    }
    SameContents(ranges, w, v);
  }

  lemma FirstOf(ranges: set<Range>, w: Window) returns (r: Range)
    requires Justified(ranges, w)
    ensures r in ranges && Inside(r, w) && r.start == w.start
  {
    hide Reached, HasTerm, EndsAt, Distinct;
    r :| r in ranges && Inside(r, w) && r.start == w.start;
  }

  lemma LastOf(ranges: set<Range>, w: Window) returns (r: Range)
    requires Justified(ranges, w)
    ensures r in ranges && Inside(r, w) && r.end == w.end
  {
    hide Reached, HasTerm, StartsAt, Distinct;
    r :| r in ranges && Inside(r, w) && r.end == w.end;
  }

  lemma WindowOf(ranges: set<Range>, merged: seq<Window>, r: Range) returns (w: Window)
    requires Covered(ranges, merged) && r in ranges
    ensures w in merged && Inside(r, w)
  {
    w :| w in merged && Inside(r, w);
  }

  lemma SameContents(ranges: set<Range>, w: Window, v: Window)
    requires Justified(ranges, w) && Justified(ranges, v)
    requires forall r :: r in ranges ==> (Inside(r, w) <==> Inside(r, v))
    ensures v.start == w.start && v.end == w.end && forall t :: t in w.terms <==> t in v.terms
  {
    var a := FirstOf(ranges, w);
    var b := FirstOf(ranges, v);
    var c := LastOf(ranges, w);
    var d := LastOf(ranges, v);
    hide Reached, StartsAt, EndsAt, Distinct;
    forall t ensures t in w.terms <==> t in v.terms {
      assert HasTerm(ranges, w, t) <==> HasTerm(ranges, v, t);
    }
  }

  /** Whatever a justified window holds lies in the one window of another merge that holds its first. */
  lemma {:induction false} StaysTogether(
      ranges: set<Range>, other: seq<Window>, w: Window, v: Window, first: Range, r: Range, n: nat)
    requires Tame(ranges, n) && Bounded(other, n) && Spaced(other) && Covered(ranges, other)
    requires Justified(ranges, w) && v in other
    requires first in ranges && first.start == w.start && Inside(first, v) && w.start <= w.end <= n
    requires r in ranges && Inside(r, w)
    ensures Inside(r, v)
    decreases r.start
  {
    hide HasTerm, StartsAt, EndsAt, Distinct, Spaced;
    var u :| u in other && Inside(r, u);
    if r.start > w.start {
      var q := ReachedFrom(ranges, w, r);
      hide Reached, Covered, Justified;
      StaysTogether(ranges, other, w, v, first, q, n);
      NearWindows(other, u, v, r, q, n);
    } else {
      NearWindows(other, u, v, r, first, n);
    }
  }

  lemma ReachedFrom(ranges: set<Range>, w: Window, r: Range) returns (q: Range)
    requires Justified(ranges, w) && r in ranges && Inside(r, w) && r.start > w.start
    ensures q in ranges && Inside(q, w) && q.start < r.start <= q.end + GAP
  {
    hide HasTerm, StartsAt, EndsAt, Distinct;
    assert Reached(ranges, w, r);
    q :| q in ranges && Inside(q, w) && q.start < r.start <= q.end + GAP;
  }

  /** Two ranges at most GAP apart cannot lie in different windows. */
  lemma NearWindows(other: seq<Window>, u: Window, v: Window, r: Range, q: Range, n: nat)
    requires Spaced(other) && Bounded(other, n) && Tame({r}, n) && u in other && v in other
    requires Inside(r, u) && Inside(q, v)
    requires q.start <= r.start <= q.end + GAP
    ensures u == v
  {
    var i :| 0 <= i < |other| && other[i] == u;
    var j :| 0 <= j < |other| && other[j] == v;
    assert r in {r};
  }

  /** The first range of `v` lies in `w` when the two windows share a range. */
  lemma {:induction false} SharedWindow(
      ranges: set<Range>, a: seq<Window>, shared: Range, v: Window, w: Window, first: Range, n: nat)
    requires Tame(ranges, n) && Bounded(a, n) && Spaced(a) && Covered(ranges, a) && Justified(ranges, v) && w in a
    requires shared in ranges && Inside(shared, v) && Inside(shared, w)
    requires first in ranges && Inside(first, v) && first.start == v.start && v.start <= v.end <= n
    ensures Inside(first, w)
  {
    hide Justified, Spaced;
    var u :| u in a && Inside(first, u);
    StaysTogether(ranges, a, v, u, first, shared, n);
    SameWindow(a, u, w, shared, n);
  }
}
