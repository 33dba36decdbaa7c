/** `canonicalJSON` (src/desktop-action/dispatcher.ts): the text whose hash is the idempotency key.

    Text is a sequence of UTF-16 code units. A number is its decimal text. Objects list their fields
    in insertion order; two values mean the same when they agree up to that order at every depth. */
module CanonicalJson {
  import opened Sequences
  import opened Sorting

  type CodeUnit = c: nat | c < 0x1_0000
  type Text = seq<CodeUnit>

  datatype Json =
    | Null
    | Bool(b: bool)
    | Num(numeral: Text)
    | Str(text: Text)
    | Arr(items: seq<Json>)
    | Obj(fields: seq<Field>)

  datatype Field = Field(key: Text, value: Json)

  const QUOTE: CodeUnit := 34
  const BACKSLASH: CodeUnit := 92
  const COMMA: CodeUnit := 44
  const COLON: CodeUnit := 58
  const OPEN_ARRAY: CodeUnit := 91
  const CLOSE_ARRAY: CodeUnit := 93
  const OPEN_OBJECT: CodeUnit := 123
  const CLOSE_OBJECT: CodeUnit := 125

  /** Digits, sign, point and exponent. */
  predicate NumeralUnit(c: CodeUnit) {
    48 <= c <= 57 || c == 45 || c == 43 || c == 46 || c == 101
  }

  ghost predicate UniqueKeys(fields: seq<Field>) {
    forall i, j :: 0 <= i < j < |fields| ==> fields[i].key != fields[j].key
  }

  /** Finite JSON values: numerals are numerals and no object repeats a key. */
  ghost predicate Valid(v: Json) {
    match v
    case Num(n) => n != [] && forall c :: c in n ==> NumeralUnit(c)
    case Arr(items) => forall x :: x in items ==> Valid(x)
    case Obj(fields) => UniqueKeys(fields) && forall f :: f in fields ==> Valid(f.value)
    case _ => true
  }

  // ---------------------------------------------------------------- printing

  predicate HighSurrogate(c: CodeUnit) { 0xD800 <= c <= 0xDBFF }
  predicate LowSurrogate(c: CodeUnit) { 0xDC00 <= c <= 0xDFFF }

  predicate LoneSurrogate(s: Text, i: nat)
    requires i < |s|
  {
    || (HighSurrogate(s[i]) && !(i + 1 < |s| && LowSurrogate(s[i + 1])))
    || (LowSurrogate(s[i]) && !(i > 0 && HighSurrogate(s[i - 1])))
  }

  function HexDigit(d: nat): CodeUnit
    requires d < 16
  {
    if d < 10 then 48 + d else 87 + d
  }

  function HexEscape(c: CodeUnit): Text {
    [BACKSLASH, 117, HexDigit(c / 4096), HexDigit(c / 256 % 16), HexDigit(c / 16 % 16), HexDigit(c % 16)]
  }

  /** How `JSON.stringify` writes one code unit of a string. */
  function EscapeUnit(s: Text, i: nat): Text
    requires i < |s|
  {
    match s[i]
    case 8 => [BACKSLASH, 98]
    case 9 => [BACKSLASH, 116]
    case 10 => [BACKSLASH, 110]
    case 12 => [BACKSLASH, 102]
    case 13 => [BACKSLASH, 114]
    case 34 => [BACKSLASH, 34]
    case 92 => [BACKSLASH, 92]
    case c => if c < 32 || LoneSurrogate(s, i) then HexEscape(c) else [c]
  }

  function EscapeFrom(s: Text, i: nat): Text
    requires i <= |s|
    decreases |s| - i
  {
    if i == |s| then [] else EscapeUnit(s, i) + EscapeFrom(s, i + 1)
  }

  function Quote(s: Text): Text {
    [QUOTE] + EscapeFrom(s, 0) + [QUOTE]
  }

  /** `JSON.stringify` without white space, fields in the order given. */
  function Print(v: Json): Text {
    match v
    case Null => [110, 117, 108, 108]
    case Bool(b) => if b then [116, 114, 117, 101] else [102, 97, 108, 115, 101]
    case Num(n) => n
    case Str(s) => Quote(s)
    case Arr(items) => [OPEN_ARRAY] + PrintItems(items) + [CLOSE_ARRAY]
    case Obj(fields) => [OPEN_OBJECT] + PrintFields(fields) + [CLOSE_OBJECT]
  }

  function PrintItems(items: seq<Json>): Text {
    if items == [] then []
    else if |items| == 1 then Print(items[0])
    else Print(items[0]) + [COMMA] + PrintItems(items[1..])
  }

  function PrintField(f: Field): Text {
    Quote(f.key) + [COLON] + Print(f.value)
  }

  function PrintFields(fields: seq<Field>): Text {
    if fields == [] then []
    else if |fields| == 1 then PrintField(fields[0])
    else PrintField(fields[0]) + [COMMA] + PrintFields(fields[1..])
  }

  // ---------------------------------------------------------------- canonical form

  /** The order of `sort()`: by code units. */
  predicate LexLeq(a: Text, b: Text) {
    a == [] || (b != [] && (a[0] < b[0] || (a[0] == b[0] && LexLeq(a[1..], b[1..]))))
  }

  predicate ByKey(f: Field, g: Field) {
    LexLeq(f.key, g.key)
  }

  function Canon(v: Json): Json {
    match v
    case Arr(items) => Arr(CanonItems(items))
    case Obj(fields) => Obj(SortBy(CanonFields(fields), ByKey))
    case _ => v
  }

  function CanonItems(items: seq<Json>): (r: seq<Json>)
    ensures |r| == |items| && forall i :: 0 <= i < |items| ==> r[i] == Canon(items[i])
  {
    if items == [] then [] else [Canon(items[0])] + CanonItems(items[1..])
  }

  function CanonFields(fields: seq<Field>): (r: seq<Field>)
    ensures |r| == |fields|
    ensures forall i :: 0 <= i < |fields| ==> r[i] == Field(fields[i].key, Canon(fields[i].value))
  {
    if fields == [] then []
    else [Field(fields[0].key, Canon(fields[0].value))] + CanonFields(fields[1..])
  }

  function CanonicalText(v: Json): Text {
    Print(Canon(v))
  }

  /** Equality that ignores the order of object keys at every depth. */
  ghost predicate Same(v: Json, w: Json) {
    match (v, w)
    case (Arr(a), Arr(b)) => |a| == |b| && forall i :: 0 <= i < |a| ==> Same(a[i], b[i])
    case (Obj(a), Obj(b)) =>
      && (forall f :: f in a ==> exists g :: g in b && f.key == g.key && Same(f.value, g.value))
      && (forall g :: g in b ==> exists f :: f in a && f.key == g.key && Same(f.value, g.value))
    case _ => v == w
  }

  // ---------------------------------------------------------------- strings decode uniquely

  function HexValue(c: CodeUnit): int {
    if c < 87 then c - 48 else c - 87
  }

  /** The code unit that an escaped text starts with, and how much of the text says so. */
  function Head(t: Text): (int, nat) {
    if |t| == 0 then (-1, 0)
    else if t[0] != BACKSLASH then (t[0], 1)
    else if |t| >= 6 && t[1] == 117 then
      (HexValue(t[2]) * 4096 + HexValue(t[3]) * 256 + HexValue(t[4]) * 16 + HexValue(t[5]), 6)
    else if |t| >= 2 then
      (match t[1] case 98 => 8 case 116 => 9 case 110 => 10 case 102 => 12 case 114 => 13 case c => c, 2)
    else (-1, 0)
  }

  lemma HexDecodes(c: CodeUnit)
    ensures HexValue(HexDigit(c / 4096)) * 4096 + HexValue(HexDigit(c / 256 % 16)) * 256
          + HexValue(HexDigit(c / 16 % 16)) * 16 + HexValue(HexDigit(c % 16)) == c
  {
    assert forall d: nat :: d < 16 ==> HexValue(HexDigit(d)) == d;
    assert c / 256 == c / 4096 * 16 + c / 256 % 16;
    assert c / 16 == c / 256 * 16 + c / 16 % 16;
  }

  lemma HeadOfEscape(s: Text, i: nat, rest: Text)
    requires i < |s|
    ensures Head(EscapeUnit(s, i) + rest) == (s[i], |EscapeUnit(s, i)|)
    ensures EscapeUnit(s, i) != [] && EscapeUnit(s, i)[0] != QUOTE
  {
    HexDecodes(s[i]);
    var e := EscapeUnit(s, i);
    var t := e + rest;
    assert forall k :: 0 <= k < |e| ==> t[k] == e[k];
  }

  /** The text of a string from position `i` on, with what follows it. */
  function Remaining(s: Text, i: nat, r: Text): Text
    requires i <= |s|
  {
    EscapeFrom(s, i) + ([QUOTE] + r)
  }

  lemma RemainingStarts(s: Text, i: nat, r: Text)
    requires i <= |s|
    ensures Remaining(s, i, r) != []
    ensures Remaining(s, i, r)[0] == QUOTE <==> i == |s|
    ensures i == |s| ==> Remaining(s, i, r)[1..] == r
    ensures i < |s| ==> Head(Remaining(s, i, r)) == (s[i], |EscapeUnit(s, i)|)
    ensures i < |s| ==> |EscapeUnit(s, i)| <= |Remaining(s, i, r)|
    ensures i < |s| ==> Remaining(s, i, r)[|EscapeUnit(s, i)|..] == Remaining(s, i + 1, r)
  {
    if i < |s| {
      var rest := Remaining(s, i + 1, r);
      HeadOfEscape(s, i, rest);
      assert Remaining(s, i, r) == EscapeUnit(s, i) + rest;
    }
  }

  /** Two escaped strings, each closed by a quote, agree only if the strings do. */
  lemma {:induction false} EscapesDiffer(s: Text, i: nat, t: Text, j: nat, r: Text, q: Text)
    requires i <= |s| && j <= |t|
    requires Remaining(s, i, r) == Remaining(t, j, q)
    ensures s[i..] == t[j..] && r == q
    decreases |s| - i
  {
    hide Remaining, EscapeUnit, Head;
    RemainingStarts(s, i, r);
    RemainingStarts(t, j, q);
    if i < |s| {
      EscapesDiffer(s, i + 1, t, j + 1, r, q);
      assert s[i..] == [s[i]] + s[i + 1..] && t[j..] == [t[j]] + t[j + 1..];
    }
  }

  lemma SameLiteral(t: Text, r: Text, q: Text)
    requires t + r == t + q
    ensures r == q
  {
    assert r == (t + r)[|t|..] && q == (t + q)[|t|..];
  }

  lemma QuoteText(s: Text, r: Text)
    ensures Quote(s) + r == [QUOTE] + Remaining(s, 0, r)
  {
    Assoc([QUOTE] + EscapeFrom(s, 0), [QUOTE], r);
    Assoc([QUOTE], EscapeFrom(s, 0), [QUOTE] + r);
  }

  lemma QuotesDiffer(s: Text, t: Text, r: Text, q: Text)
    requires Quote(s) + r == Quote(t) + q
    ensures s == t && r == q
  {
    hide Quote, Remaining;
    QuoteText(s, r);
    QuoteText(t, q);
    SameLiteral([QUOTE], Remaining(s, 0, r), Remaining(t, 0, q));
    EscapesDiffer(s, 0, t, 0, r, q);
    assert s[0..] == s && t[0..] == t;
  }

  // ---------------------------------------------------------------- values decode uniquely

  /** What may follow a value. */
  predicate Ends(r: Text) {
    r == [] || r[0] == COMMA || r[0] == CLOSE_ARRAY || r[0] == CLOSE_OBJECT
  }

  lemma NumeralRun(a: Text, r: Text)
    requires (forall c :: c in a ==> NumeralUnit(c)) && Ends(r)
    ensures forall k :: 0 <= k < |a| ==> NumeralUnit((a + r)[k])
    ensures |a| < |a + r| ==> !NumeralUnit((a + r)[|a|])
  {
    forall k | 0 <= k < |a| ensures NumeralUnit((a + r)[k]) {
      assert (a + r)[k] in a;
    }
  }

  lemma NumeralsDiffer(a: Text, b: Text, r: Text, q: Text)
    requires (forall c :: c in a ==> NumeralUnit(c)) && (forall c :: c in b ==> NumeralUnit(c))
    requires Ends(r) && Ends(q) && a + r == b + q
    ensures a == b && r == q
  {
    NumeralRun(a, r);
    NumeralRun(b, q);
    assert |a| == |b|;
    assert a == (a + r)[..|a|] && b == (b + q)[..|b|];
    assert r == (a + r)[|a|..] && q == (b + q)[|b|..];
  }

  /** The first code unit of a value's text tells its kind. */
  ghost predicate StartsLike(v: Json, c: CodeUnit) {
    match v
    case Null => c == 110
    case Bool(b) => c == if b then 116 else 102
    case Num(_) => NumeralUnit(c)
    case Str(_) => c == QUOTE
    case Arr(_) => c == OPEN_ARRAY
    case Obj(_) => c == OPEN_OBJECT
  }

  lemma PrintStarts(v: Json)
    requires Valid(v)
    ensures Print(v) != [] && StartsLike(v, Print(v)[0])
  {
    if v.Num? { assert v.numeral[0] in v.numeral; }
  }

  lemma SameKind(v: Json, w: Json, c: CodeUnit)
    requires StartsLike(v, c) && StartsLike(w, c)
    ensures v.Null? <==> w.Null?
    ensures v.Bool? <==> w.Bool?
    ensures v.Bool? ==> v == w
    ensures v.Num? <==> w.Num?
    ensures v.Str? <==> w.Str?
    ensures v.Arr? <==> w.Arr?
    ensures v.Obj? <==> w.Obj?
  {
  }

  /** A text that starts with two printed values starts with one. */
  lemma {:induction false} PrintsDiffer(v: Json, w: Json, r: Text, q: Text)
    requires Valid(v) && Valid(w) && Ends(r) && Ends(q)
    requires Print(v) + r == Print(w) + q
    ensures v == w && r == q
    decreases v, 1
  {
    PrintStarts(v);
    PrintStarts(w);
    assert (Print(v) + r)[0] == Print(v)[0] && (Print(w) + q)[0] == Print(w)[0];
    SameKind(v, w, Print(v)[0]);
    hide StartsLike, Ends, PrintItems, PrintFields;
    match v
    case Null =>
      SameLiteral(Print(v), r, q);
    case Bool(b) =>
      SameLiteral(Print(v), r, q);
    case Num(n) =>
      NumeralsDiffer(n, w.numeral, r, q);
    case Str(s) =>
      QuotesDiffer(s, w.text, r, q);
    case Arr(items) =>
      ArrayText(items, r);
      ArrayText(w.items, q);
      ItemsDiffer(items, w.items, r, q);
    case Obj(fields) =>
      ObjectText(fields, r);
      ObjectText(w.fields, q);
      FieldsDiffer(fields, w.fields, r, q);
  }

  lemma ArrayText(items: seq<Json>, r: Text)
    ensures |Print(Arr(items)) + r| > 0
    ensures (Print(Arr(items)) + r)[1..] == PrintItems(items) + ([CLOSE_ARRAY] + r)
  {
  }

  lemma ObjectText(fields: seq<Field>, r: Text)
    ensures |Print(Obj(fields)) + r| > 0
    ensures (Print(Obj(fields)) + r)[1..] == PrintFields(fields) + ([CLOSE_OBJECT] + r)
  {
  }

  /** The rest of an array after its first item. */
  function ItemsTail(items: seq<Json>, r: Text): Text
    requires items != []
  {
    if |items| == 1 then [CLOSE_ARRAY] + r else [COMMA] + (PrintItems(items[1..]) + ([CLOSE_ARRAY] + r))
  }

  lemma ItemsSplit(items: seq<Json>, r: Text)
    requires forall x :: x in items ==> Valid(x)
    ensures var t := PrintItems(items) + ([CLOSE_ARRAY] + r);
      && (t[0] == CLOSE_ARRAY <==> items == [])
      && (items == [] ==> t[1..] == r)
      && (items != [] ==> t == Print(items[0]) + ItemsTail(items, r))
  {
    if items != [] {
      PrintStarts(items[0]);
      hide Print;
      if |items| > 1 {
        Assoc(Print(items[0]) + [COMMA], PrintItems(items[1..]), [CLOSE_ARRAY] + r);
        Assoc(Print(items[0]), [COMMA], PrintItems(items[1..]) + ([CLOSE_ARRAY] + r));
      }
    }
  }

  lemma ItemsTailStarts(items: seq<Json>, r: Text)
    requires items != []
    ensures Ends(ItemsTail(items, r)) && ItemsTail(items, r) != []
    ensures ItemsTail(items, r)[0] == CLOSE_ARRAY <==> |items| == 1
    ensures ItemsTail(items, r)[1..] == if |items| == 1 then r else PrintItems(items[1..]) + ([CLOSE_ARRAY] + r)
  {
  }

  lemma {:induction false} ItemsDiffer(a: seq<Json>, b: seq<Json>, r: Text, q: Text)
    requires (forall x :: x in a ==> Valid(x)) && (forall x :: x in b ==> Valid(x))
    requires PrintItems(a) + ([CLOSE_ARRAY] + r) == PrintItems(b) + ([CLOSE_ARRAY] + q)
    ensures a == b && r == q
    decreases a, 0
  {
    ItemsSplit(a, r);
    ItemsSplit(b, q);
    if a != [] {
      hide ItemsTail, Print, PrintItems, Ends;
      ItemsTailStarts(a, r);
      ItemsTailStarts(b, q);
      PrintsDiffer(a[0], b[0], ItemsTail(a, r), ItemsTail(b, q));
      assert a == [a[0]] + a[1..] && b == [b[0]] + b[1..];
      if |a| > 1 {
        ItemsDiffer(a[1..], b[1..], r, q);
      }
    }
  }

  function FieldsTail(fields: seq<Field>, r: Text): Text
    requires fields != []
  {
    if |fields| == 1 then [CLOSE_OBJECT] + r else [COMMA] + (PrintFields(fields[1..]) + ([CLOSE_OBJECT] + r))
  }

  lemma FieldsSplit(fields: seq<Field>, r: Text)
    ensures var t := PrintFields(fields) + ([CLOSE_OBJECT] + r);
      && (t[0] == CLOSE_OBJECT <==> fields == [])
      && (fields == [] ==> t[1..] == r)
      && (fields != [] ==> t == Quote(fields[0].key) + ([COLON] + (Print(fields[0].value) + FieldsTail(fields, r))))
  {
    if fields != [] {
      var q, p := Quote(fields[0].key), Print(fields[0].value);
      assert q[0] == QUOTE;
      hide Print, Quote;
      if |fields| > 1 {
        Assoc(PrintField(fields[0]) + [COMMA], PrintFields(fields[1..]), [CLOSE_OBJECT] + r);
        Assoc(PrintField(fields[0]), [COMMA], PrintFields(fields[1..]) + ([CLOSE_OBJECT] + r));
      }
      assert PrintFields(fields) + ([CLOSE_OBJECT] + r) == PrintField(fields[0]) + FieldsTail(fields, r);
      Assoc(q + [COLON], p, FieldsTail(fields, r));
      Assoc(q, [COLON], p + FieldsTail(fields, r));
    }
  }

  lemma FieldsTailStarts(fields: seq<Field>, r: Text)
    requires fields != []
    ensures Ends(FieldsTail(fields, r)) && FieldsTail(fields, r) != []
    ensures FieldsTail(fields, r)[0] == CLOSE_OBJECT <==> |fields| == 1
    ensures FieldsTail(fields, r)[1..] == if |fields| == 1 then r else PrintFields(fields[1..]) + ([CLOSE_OBJECT] + r)
  {
  }

  lemma {:induction false} FieldsDiffer(a: seq<Field>, b: seq<Field>, r: Text, q: Text)
    requires (forall f :: f in a ==> Valid(f.value)) && (forall f :: f in b ==> Valid(f.value))
    requires PrintFields(a) + ([CLOSE_OBJECT] + r) == PrintFields(b) + ([CLOSE_OBJECT] + q)
    ensures a == b && r == q
    decreases a, 0
  {
    FieldsSplit(a, r);
    FieldsSplit(b, q);
    if a != [] {
      hide FieldsTail, Quote, Print, PrintFields, Ends;
      FieldsTailStarts(a, r);
      FieldsTailStarts(b, q);
      FirstFieldsDiffer(a[0], b[0], FieldsTail(a, r), FieldsTail(b, q));
      assert a == [a[0]] + a[1..] && b == [b[0]] + b[1..];
      if |a| > 1 {
        FieldsDiffer(a[1..], b[1..], r, q);
      }
    }
  }

  lemma FirstFieldsDiffer(f: Field, g: Field, r: Text, q: Text)
    requires Valid(f.value) && Valid(g.value) && Ends(r) && Ends(q)
    requires Quote(f.key) + ([COLON] + (Print(f.value) + r)) == Quote(g.key) + ([COLON] + (Print(g.value) + q))
    ensures f == g && r == q
    decreases f, 0
  {
    hide Quote, Print, Ends;
    QuotesDiffer(f.key, g.key, [COLON] + (Print(f.value) + r), [COLON] + (Print(g.value) + q));
    SameLiteral([COLON], Print(f.value) + r, Print(g.value) + q);
    PrintsDiffer(f.value, g.value, r, q);
  }

  /** A printed value can be read back: the text determines it. */
  lemma PrintInjective(v: Json, w: Json)
    requires Valid(v) && Valid(w)
    ensures Print(v) == Print(w) <==> v == w
  {
    if Print(v) == Print(w) {
      PrintsDiffer(v, w, [], []);
    }
  }

  // ---------------------------------------------------------------- the order of keys

  lemma {:induction false} LexTotal(a: Text, b: Text)
    ensures LexLeq(a, b) || LexLeq(b, a)
  {
    if a != [] && b != [] { LexTotal(a[1..], b[1..]); }
  }

  lemma {:induction false} LexTransitive(a: Text, b: Text, c: Text)
    requires LexLeq(a, b) && LexLeq(b, c)
    ensures LexLeq(a, c)
  {
    if a != [] && a[0] == b[0] && b[0] == c[0] { LexTransitive(a[1..], b[1..], c[1..]); }
  }

  lemma {:induction false} LexAntisymmetric(a: Text, b: Text)
    requires LexLeq(a, b) && LexLeq(b, a)
    ensures a == b
  {
    if a != [] {
      LexAntisymmetric(a[1..], b[1..]);
      assert a == [a[0]] + a[1..] && b == [b[0]] + b[1..];
    }
  }

  lemma ByKeyIsPreorder()
    ensures TotalPreorder(ByKey)
  {
    forall f, g ensures ByKey(f, g) || ByKey(g, f) {
      LexTotal(f.key, g.key);
    }
    forall f, g, h | ByKey(f, g) && ByKey(g, h) ensures ByKey(f, h) {
      LexTransitive(f.key, g.key, h.key);
    }
  }

  // ---------------------------------------------------------------- canonical forms

  lemma {:induction false} CanonValid(v: Json)
    requires Valid(v)
    ensures Valid(Canon(v))
  {
    match v
    case Arr(items) =>
      forall x | x in CanonItems(items) ensures Valid(x) {
        var i :| 0 <= i < |items| && CanonItems(items)[i] == x;
        CanonValid(items[i]);
      }
    case Obj(fields) =>
      var c := CanonFields(fields);
      forall f | f in c ensures Valid(f.value) {
        var i :| 0 <= i < |c| && c[i] == f;
        CanonValid(fields[i].value);
      }
      SortedKeysUnique(c);
    case _ =>
  }

  lemma SortedKeysUnique(fields: seq<Field>)
    requires UniqueKeys(fields)
    ensures UniqueKeys(SortBy(fields, ByKey))
  {
    var s := SortBy(fields, ByKey);
    ByKeyIsPreorder();
    SortByDistinct(fields, ByKey);
    forall i, j | 0 <= i < j < |s| ensures s[i].key != s[j].key {
      assert s[i] in fields && s[j] in fields;
    }
  }

  /** Two objects have the same canonical form exactly when they have the same fields, up to
      canonical forms of the values. */
  lemma SortedFieldsAgree(a: seq<Field>, b: seq<Field>)
    requires UniqueKeys(a) && UniqueKeys(b)
    ensures SortBy(a, ByKey) == SortBy(b, ByKey) <==> Within(a, b) && Within(b, a)
  {
    var s, t := SortBy(a, ByKey), SortBy(b, ByKey);
    ByKeyIsPreorder();
    if Within(a, b) && Within(b, a) {
      SameElements(a, b);
      SortBySorts(a, ByKey);
      SortBySorts(b, ByKey);
      forall f, g | f in s && g in s && ByKey(f, g) && ByKey(g, f) ensures f == g {
        LexAntisymmetric(f.key, g.key);
      }
      SortedIsUnique(s, t, ByKey);
    }
  }

  /** Canonical forms agree exactly when the values are equal up to key order. */
  lemma {:induction false} CanonDecidesSame(v: Json, w: Json)
    requires Valid(v) && Valid(w)
    ensures Canon(v) == Canon(w) <==> Same(v, w)
    decreases v
  {
    match (v, w)
    case (Arr(a), Arr(b)) =>
      if |a| == |b| {
        forall i | 0 <= i < |a| ensures Canon(a[i]) == Canon(b[i]) <==> Same(a[i], b[i]) {
          CanonDecidesSame(a[i], b[i]);
        }
        assert (forall i :: 0 <= i < |a| ==> Same(a[i], b[i])) ==> CanonItems(a) == CanonItems(b);
        assert CanonItems(a) == CanonItems(b) ==> forall i :: 0 <= i < |a| ==> CanonItems(a)[i] == CanonItems(b)[i];
      }
    case (Obj(a), Obj(b)) =>
      ObjectsAgree(a, b);
      forall f, g | f in a && g in b ensures Canon(f.value) == Canon(g.value) <==> Same(f.value, g.value) {
        CanonDecidesSame(f.value, g.value);
      }
    case _ =>
  }

  ghost predicate HasMatch(f: Field, b: seq<Field>) {
    exists g :: g in b && f.key == g.key && Canon(f.value) == Canon(g.value)
  }

  ghost predicate Included(a: seq<Field>, b: seq<Field>) {
    forall f :: f in a ==> HasMatch(f, b)
  }

  ghost predicate Within(a: seq<Field>, b: seq<Field>) {
    forall f :: f in a ==> f in b
  }

  lemma IncludedCanon(a: seq<Field>, b: seq<Field>)
    ensures Included(a, b) <==> Within(CanonFields(a), CanonFields(b))
  {
    var c, d := CanonFields(a), CanonFields(b);
    hide Canon, HasMatch, CanonFields;
    if Included(a, b) {
      forall f | f in c ensures f in d {
        var i :| 0 <= i < |c| && c[i] == f;
        MatchCanon(a, b, i);
      }
      assert Within(c, d);
    }
    if Within(c, d) {
      forall f | f in a ensures HasMatch(f, b) {
        var i :| 0 <= i < |a| && a[i] == f;
        assert c[i] in c;
        CanonMatch(a, b, i);
      }
      assert Included(a, b);
    }
  }

  lemma MatchCanon(a: seq<Field>, b: seq<Field>, i: nat)
    requires i < |a| && Included(a, b)
    ensures CanonFields(a)[i] in CanonFields(b)
  {
    hide Canon;
    assert a[i] in a && HasMatch(a[i], b);
    var g :| g in b && a[i].key == g.key && Canon(a[i].value) == Canon(g.value);
    var j :| 0 <= j < |b| && b[j] == g;
    assert CanonFields(b)[j] == CanonFields(a)[i];
  }

  lemma CanonMatch(a: seq<Field>, b: seq<Field>, i: nat)
    requires i < |a| && CanonFields(a)[i] in CanonFields(b)
    ensures HasMatch(a[i], b)
  {
    hide Canon;
    var j :| 0 <= j < |b| && CanonFields(b)[j] == CanonFields(a)[i];
    assert b[j] in b;
  }

  lemma ObjectsAgree(a: seq<Field>, b: seq<Field>)
    requires UniqueKeys(a) && UniqueKeys(b)
    ensures Canon(Obj(a)) == Canon(Obj(b)) <==> Included(a, b) && Included(b, a)
  {
    hide SortBy;
    SortedFieldsAgree(CanonFields(a), CanonFields(b));
    IncludedCanon(a, b);
    IncludedCanon(b, a);
    hide Included;
  }

  /** `canonicalJSON` gives two finite JSON values the same text exactly when they are equal after
      ignoring key order at every depth. */
  lemma TextDecidesSame(v: Json, w: Json)
    requires Valid(v) && Valid(w)
    ensures CanonicalText(v) == CanonicalText(w) <==> Same(v, w)
  {
    CanonValid(v);
    CanonValid(w);
    PrintInjective(Canon(v), Canon(w));
    CanonDecidesSame(v, w);
  }

  // ---------------------------------------------------------------- the source's own recursion

  lemma {:induction false} InsertCanon(s: seq<Field>, f: Field)
    ensures CanonFields(Insert(s, f, ByKey)) == Insert(CanonFields(s), Field(f.key, Canon(f.value)), ByKey)
  {
    if s != [] {
      var init, last := s[..|s| - 1], s[|s| - 1];
      InsertCanon(init, f);
      hide Canon, LexLeq;
      assert CanonFields(s)[..|s| - 1] == CanonFields(init);
    }
  }

  lemma {:induction false} SortCanon(fields: seq<Field>)
    ensures CanonFields(SortBy(fields, ByKey)) == SortBy(CanonFields(fields), ByKey)
  {
    if fields != [] {
      var init := fields[..|fields| - 1];
      SortCanon(init);
      InsertCanon(SortBy(init, ByKey), fields[|fields| - 1]);
      assert CanonFields(fields)[..|fields| - 1] == CanonFields(init);
    }
  }

  /** Join the texts with commas. */
  function Join(texts: seq<Text>): Text {
    if texts == [] then []
    else if |texts| == 1 then texts[0]
    else texts[0] + [COMMA] + Join(texts[1..])
  }

  function ItemTexts(items: seq<Json>): seq<Text> {
    seq(|items|, i requires 0 <= i < |items| => CanonicalText(items[i]))
  }

  function FieldTexts(fields: seq<Field>): seq<Text> {
    seq(|fields|, i requires 0 <= i < |fields| => Quote(fields[i].key) + [COLON] + CanonicalText(fields[i].value))
  }

  lemma {:induction false} ItemsJoin(items: seq<Json>)
    ensures PrintItems(CanonItems(items)) == Join(ItemTexts(items))
  {
    hide Print, Canon;
    if items != [] {
      assert Print(CanonItems(items)[0]) == ItemTexts(items)[0];
    }
    if |items| > 1 {
      ItemsJoin(items[1..]);
      assert CanonItems(items)[1..] == CanonItems(items[1..]);
      assert ItemTexts(items)[1..] == ItemTexts(items[1..]);
    }
  }

  function PrintedFields(fields: seq<Field>): (r: seq<Text>)
    ensures |r| == |fields| && forall i :: 0 <= i < |r| ==> r[i] == PrintField(fields[i])
  {
    if fields == [] then [] else [PrintField(fields[0])] + PrintedFields(fields[1..])
  }

  lemma {:induction false} PrintJoins(fields: seq<Field>)
    ensures PrintFields(fields) == Join(PrintedFields(fields))
  {
    hide PrintField;
    if fields != [] {
      PrintJoins(fields[1..]);
      assert PrintedFields(fields)[1..] == PrintedFields(fields[1..]);
    }
  }

  lemma FieldsJoin(fields: seq<Field>)
    ensures PrintFields(CanonFields(fields)) == Join(FieldTexts(fields))
  {
    PrintJoins(CanonFields(fields));
    hide PrintFields, Join, Canon, Print, Quote;
    assert PrintedFields(CanonFields(fields)) == FieldTexts(fields);
  }

  /** The equations the source writes: map and join for arrays; sort the keys, look each value up,
      and join for objects; `JSON.stringify` for everything else. */
  lemma TextEquations(v: Json)
    ensures v.Arr? ==> CanonicalText(v) == [OPEN_ARRAY] + Join(ItemTexts(v.items)) + [CLOSE_ARRAY]
    ensures v.Obj? ==>
      CanonicalText(v) == [OPEN_OBJECT] + Join(FieldTexts(SortBy(v.fields, ByKey))) + [CLOSE_OBJECT]
    ensures !v.Arr? && !v.Obj? ==> CanonicalText(v) == Print(v)
  {
    match v
    case Arr(items) =>
      ItemsJoin(items);
    case Obj(fields) =>
      SortCanon(fields);
      FieldsJoin(SortBy(fields, ByKey));
    case _ =>
  }
}
