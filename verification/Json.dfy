/**
 JSON values and the canonical printer the client compares deliveries with.

 Text is a sequence of UTF-16 code units, because both the key order and the
 string escapes of the printer are defined on code units.  A number is carried
 as the text the runtime prints for it; objects keep their insertion order.
 */
module Json {

  type Unit = x: int | 0 <= x < 0x1_0000
  type Text = seq<Unit>

  const QUOTE: Unit := 0x22
  const BACKSLASH: Unit := 0x5c
  const COMMA: Unit := 0x2c
  const COLON: Unit := 0x3a
  const LEFT_BRACKET: Unit := 0x5b
  const RIGHT_BRACKET: Unit := 0x5d
  const LEFT_BRACE: Unit := 0x7b
  const RIGHT_BRACE: Unit := 0x7d
  const NULL_TEXT: Text := [0x6e, 0x75, 0x6c, 0x6c]
  const TRUE_TEXT: Text := [0x74, 0x72, 0x75, 0x65]
  const FALSE_TEXT: Text := [0x66, 0x61, 0x6c, 0x73, 0x65]

  /** `Overflow` is a number too large to hold, such as 1e400. */
  datatype Json =
    | Null
    | Overflow
    | Bool(b: bool)
    | Num(token: Text)
    | Str(s: Text)
    | Arr(items: seq<Json>)
    | Obj(fields: seq<Field>)

  datatype Field = Field(key: Text, value: Json)

  /* ----- What a JSON value is, and when two are the same ----- */

  predicate IsDigitOrMinus(u: Unit) {
    0x30 <= u <= 0x39 || u == 0x2d
  }

  /** Digits, sign, point and exponent marker: what a printed finite number is made of. */
  predicate IsNumberUnit(u: Unit) {
    IsDigitOrMinus(u) || u == 0x2b || u == 0x2e || u == 0x45 || u == 0x65
  }

  predicate IsNumberToken(t: Text) {
    t != [] && IsDigitOrMinus(t[0]) && forall i | 0 <= i < |t| :: IsNumberUnit(t[i])
  }

  ghost predicate DistinctKeys(fields: seq<Field>) {
    forall i, j | 0 <= i < j < |fields| :: fields[i].key != fields[j].key
  }

  /** Objects have distinct keys at every depth; numbers are printed numbers. */
  ghost predicate WellFormed(v: Json) {
    match v
    case Num(t) => IsNumberToken(t)
    case Arr(items) => forall x | x in items :: WellFormed(x)
    case Obj(fields) => DistinctKeys(fields) && forall f | f in fields :: WellFormed(f.value)
    case _ => true
  }

  ghost function Keys(fields: seq<Field>): set<Text> {
    set f | f in fields :: f.key
  }

  /** Printed as null. */
  predicate IsBlank(v: Json) {
    v.Null? || v.Overflow?
  }

  /** The same JSON value up to the order of object keys; a number too large to hold is the same as null. */
  ghost predicate Same(a: Json, b: Json) {
    match (a, b)
    case (Null, _) => IsBlank(b)
    case (Overflow, _) => IsBlank(b)
    case (Arr(x), Arr(y)) => |x| == |y| && forall i | 0 <= i < |x| :: Same(x[i], y[i])
    case (Obj(f), Obj(g)) =>
      && Keys(f) == Keys(g)
      && forall p, q | p in f && q in g && p.key == q.key :: Same(p.value, q.value)
    case _ => a == b
  }

  /* ----- JSON.stringify of a string ----- */

  predicate IsHigh(u: Unit) { 0xd800 <= u < 0xdc00 }

  predicate IsLow(u: Unit) { 0xdc00 <= u < 0xe000 }

  function HexDigit(d: int): Unit
    requires 0 <= d < 16
  {
    if d < 10 then 0x30 + d else 0x57 + d
  }

  /** The escape of one code unit that is not half of a surrogate pair. */
  function Escape(u: Unit): Text {
    if u == QUOTE then [BACKSLASH, QUOTE]
    else if u == BACKSLASH then [BACKSLASH, BACKSLASH]
    else if u == 0x08 then [BACKSLASH, 0x62]
    else if u == 0x0c then [BACKSLASH, 0x66]
    else if u == 0x0a then [BACKSLASH, 0x6e]
    else if u == 0x0d then [BACKSLASH, 0x72]
    else if u == 0x09 then [BACKSLASH, 0x74]
    else if u < 0x20 || IsHigh(u) || IsLow(u) then
      [BACKSLASH, 0x75, HexDigit(u / 4096), HexDigit(u / 256 % 16), HexDigit(u / 16 % 16), HexDigit(u % 16)]
    else [u]
  }

  predicate StartsWithPair(s: Text) {
    |s| >= 2 && IsHigh(s[0]) && IsLow(s[1])
  }

  function Body(s: Text): Text {
    if s == [] then []
    else if StartsWithPair(s) then s[..2] + Body(s[2..])
    else Escape(s[0]) + Body(s[1..])
  }

  function Quote(s: Text): Text {
    [QUOTE] + Body(s) + [QUOTE]
  }

  /* ----- canonicalJson ----- */

  predicate Less(a: Text, b: Text) {
    b != [] && (a == [] || a[0] < b[0] || (a[0] == b[0] && Less(a[1..], b[1..])))
  }

  function Insert(f: Field, sorted: seq<Field>): (r: seq<Field>)
    ensures multiset(r) == multiset(sorted) + multiset{f}
  {
    if sorted == [] || Less(f.key, sorted[0].key) then [f] + sorted
    else
      assert sorted == [sorted[0]] + sorted[1..];
      [sorted[0]] + Insert(f, sorted[1..])
  }

  function SortFields(fields: seq<Field>): (r: seq<Field>)
    ensures multiset(r) == multiset(fields)
  {
    if fields == [] then []
    else
      assert fields == [fields[0]] + fields[1..];
      Insert(fields[0], SortFields(fields[1..]))
  }

  lemma SameMembers(a: seq<Field>, b: seq<Field>)
    requires multiset(a) == multiset(b)
    ensures |a| == |b|
    ensures forall f :: f in a <==> f in b
  {
    assert |a| == |multiset(a)| == |multiset(b)| == |b|;
    forall f
      ensures f in a <==> f in b
    {
      assert f in a <==> f in multiset(a);
    }
  }

  function Canonical(v: Json): Text
    decreases v
  {
    match v
    case Null | Overflow => NULL_TEXT
    case Bool(b) => if b then TRUE_TEXT else FALSE_TEXT
    case Num(t) => t
    case Str(s) => Quote(s)
    case Arr(items) => [LEFT_BRACKET] + CanonicalItems(v, items) + [RIGHT_BRACKET]
    case Obj(fields) =>
      SameMembers(SortFields(fields), fields);
      [LEFT_BRACE] + CanonicalFields(v, SortFields(fields)) + [RIGHT_BRACE]
  }

  /** The printed elements of owner, joined by commas. */
  function CanonicalItems(owner: Json, items: seq<Json>): Text
    requires forall i | 0 <= i < |items| :: items[i] < owner
    decreases owner, |items|
  {
    if items == [] then []
    else Canonical(items[0]) + ItemsTail(owner, items[1..])
  }

  function ItemsTail(owner: Json, items: seq<Json>): Text
    requires forall i | 0 <= i < |items| :: items[i] < owner
    decreases owner, |items|
  {
    if items == [] then []
    else [COMMA] + Canonical(items[0]) + ItemsTail(owner, items[1..])
  }

  /** The printed members of owner, in the given order, joined by commas. */
  function CanonicalFields(owner: Json, fields: seq<Field>): Text
    requires forall f | f in fields :: f.value < owner
    decreases owner, |fields|
  {
    if fields == [] then []
    else Quote(fields[0].key) + [COLON] + Canonical(fields[0].value) + FieldsTail(owner, fields[1..])
  }

  function FieldsTail(owner: Json, fields: seq<Field>): Text
    requires forall f | f in fields :: f.value < owner
    decreases owner, |fields|
  {
    if fields == [] then []
    else [COMMA] + Quote(fields[0].key) + [COLON] + Canonical(fields[0].value) + FieldsTail(owner, fields[1..])
  }

  /* ----- Strings decode uniquely ----- */

  function HexValue(u: Unit): int {
    if u < 0x3a then u - 0x30 else u - 0x57
  }

  function FromHex(a: Unit, b: Unit, c: Unit, d: Unit): int {
    4096 * HexValue(a) + 256 * HexValue(b) + 16 * HexValue(c) + HexValue(d)
  }

  datatype Scanned = Bad | Scanned(text: Text, rest: Text)

  function Prepend(u: Unit, r: Scanned): Scanned {
    if r.Scanned? then Scanned([u] + r.text, r.rest) else Bad
  }

  function Unescape(u: Unit): Unit {
    if u == 0x62 then 0x08 else if u == 0x66 then 0x0c else if u == 0x6e then 0x0a
    else if u == 0x72 then 0x0d else if u == 0x74 then 0x09 else u
  }

  /** How many units the next character of a string literal takes. */
  function Width(t: Text): nat
    requires t != []
  {
    if t[0] != BACKSLASH then 1 else if |t| > 1 && t[1] == 0x75 then 6 else 2
  }

  function Decode(t: Text): Unit
    requires t != [] && Width(t) <= |t|
  {
    if Width(t) == 1 then t[0]
    else if Width(t) == 2 then Unescape(t[1])
    else
      var code := FromHex(t[2], t[3], t[4], t[5]);
      if 0 <= code < 0x1_0000 then code else 0
  }

  /** Reads the inside of a string literal up to its closing quote. */
  function Scan(t: Text): Scanned {
    if t == [] || Width(t) > |t| then Bad
    else if t[0] == QUOTE then Scanned([], t[1..])
    else Prepend(Decode(t), Scan(t[Width(t)..]))
  }

  lemma HexRoundTrip(u: Unit)
    ensures FromHex(HexDigit(u / 4096), HexDigit(u / 256 % 16), HexDigit(u / 16 % 16), HexDigit(u % 16)) == u
  {
    assert forall d | 0 <= d < 16 :: HexValue(HexDigit(d)) == d;
    assert u / 256 == 16 * (u / 4096) + u / 256 % 16;
    assert u / 16 == 16 * (u / 256) + u / 16 % 16;
  }

  lemma ScanOne(u: Unit, rest: Text)
    ensures Scan(Escape(u) + rest) == Prepend(u, Scan(rest))
  {
    var e := Escape(u);
    var t := e + rest;
    HexRoundTrip(u);
    assert Width(t) == |e| && t[0] != QUOTE && Decode(t) == u;
    assert t[|e|..] == rest;
  }

  lemma Assoc<T>(a: seq<T>, b: seq<T>, c: seq<T>)
    ensures (a + b) + c == a + (b + c)
  {
  }

  lemma ScanRaw(u: Unit, rest: Text)
    requires u != QUOTE && u != BACKSLASH
    ensures Scan([u] + rest) == Prepend(u, Scan(rest))
  {
    assert ([u] + rest)[1..] == rest;
  }

  lemma ScanClose(rest: Text)
    ensures Scan([QUOTE] + rest) == Scanned([], rest)
  {
    assert ([QUOTE] + rest)[1..] == rest;
  }

  lemma ScanPair(s: Text, tail: Text)
    requires |s| == 2 && StartsWithPair(s)
    ensures Scan(s + tail) == Prepend(s[0], Prepend(s[1], Scan(tail)))
  {
    assert s + tail == [s[0]] + ([s[1]] + tail);
    ScanRaw(s[1], tail);
    ScanRaw(s[0], [s[1]] + tail);
  }

  lemma BodyUnfolds(s: Text, r: Text)
    ensures s == [] ==> Body(s) + r == r
    ensures s != [] && StartsWithPair(s) ==> Body(s) + r == s[..2] + (Body(s[2..]) + r)
    ensures s != [] && !StartsWithPair(s) ==> Body(s) + r == Escape(s[0]) + (Body(s[1..]) + r)
  {
    if StartsWithPair(s) {
      Assoc(s[..2], Body(s[2..]), r);
    } else if s != [] {
      Assoc(Escape(s[0]), Body(s[1..]), r);
    }
  }

  /** A printed pair in front of a scanned tail. */
  lemma PairInFront(s: Text, tail: Text, rest: Text)
    requires StartsWithPair(s) && Scan(tail) == Scanned(s[2..], rest)
    ensures Scan(s[..2] + tail) == Scanned(s, rest)
  {
    ScanPair(s[..2], tail);
    hide Scan;
    assert [s[0]] + ([s[1]] + s[2..]) == s;
  }

  lemma UnitInFront(s: Text, tail: Text, rest: Text)
    requires s != [] && Scan(tail) == Scanned(s[1..], rest)
    ensures Scan(Escape(s[0]) + tail) == Scanned(s, rest)
  {
    hide Scan, Escape;
    ScanOne(s[0], tail);
    assert [s[0]] + s[1..] == s;
  }

  lemma {:induction false} ScanBody(s: Text, rest: Text)
    ensures Scan(Body(s) + ([QUOTE] + rest)) == Scanned(s, rest)
  {
    hide Scan, Body, Escape;
    var close := [QUOTE] + rest;
    BodyUnfolds(s, close);
    if s == [] {
      ScanClose(rest);
    } else if StartsWithPair(s) {
      ScanBody(s[2..], rest);
      PairInFront(s, Body(s[2..]) + close, rest);
    } else {
      ScanBody(s[1..], rest);
      UnitInFront(s, Body(s[1..]) + close, rest);
    }
  }

  lemma QuoteTail(s: Text, r: Text)
    ensures (Quote(s) + r)[1..] == Body(s) + ([QUOTE] + r)
  {
    Assoc([QUOTE], Body(s), [QUOTE]);
    Assoc([QUOTE], Body(s) + [QUOTE], r);
    Assoc(Body(s), [QUOTE], r);
  }

  /** A printed string determines both the string and what follows it. */
  lemma QuoteDetermines(s: Text, r: Text, s': Text, r': Text)
    requires Quote(s) + r == Quote(s') + r'
    ensures s == s' && r == r'
  {
    QuoteTail(s, r);
    QuoteTail(s', r');
    ScanBody(s, r);
    ScanBody(s', r');
  }

  /* ----- Only what must be is escaped ----- */

  /** Half of a surrogate pair whose other half is missing. */
  predicate Lone(s: Text, i: nat)
    requires i < |s|
  {
    || (0xd800 <= s[i] < 0xdc00 && !(i + 1 < |s| && 0xdc00 <= s[i + 1] < 0xe000))
    || (0xdc00 <= s[i] < 0xe000 && !(i > 0 && 0xd800 <= s[i - 1] < 0xdc00))
  }

  /** A quote, a backslash, a control character, or half a pair. */
  predicate MustEscape(s: Text, i: nat)
    requires i < |s|
  {
    s[i] == 0x22 || s[i] == 0x5c || s[i] < 0x20 || Lone(s, i)
  }

  /** An escape is short for quote, backslash and the five named control characters, and four hex digits otherwise. */
  lemma EscapeMeans(u: Unit)
    ensures |Escape(u)| == 2 <==> u == 0x22 || u == 0x5c || 0x08 <= u <= 0x0a || 0x0c <= u <= 0x0d
    ensures |Escape(u)| == 1 <==> u != 0x22 && u != 0x5c && 0x20 <= u && !(0xd800 <= u < 0xe000)
    ensures |Escape(u)| == 1 ==> Escape(u) == [u]
    ensures |Escape(u)| != 1 ==> Escape(u)[0] == 0x5c
    ensures |Escape(u)| == 6 ==> Escape(u)[1] == 0x75
  {
  }

  /** Cutting off a first character, or a first pair, leaves every later unit as lone as it was. */
  lemma LaterAsBefore(s: Text, n: nat, i: nat)
    requires n <= i < |s| && (n == 1 || n == 2) && (n == 1 ==> !(0xd800 <= s[0] < 0xdc00) || !StartsWithPair(s))
    requires n == 2 ==> StartsWithPair(s)
    ensures MustEscape(s, i) <==> MustEscape(s[n..], i - n)
  {
    assert s[n..][i - n] == s[i];
    assert i + 1 < |s| ==> s[n..][i - n + 1] == s[i + 1];
    assert i > n ==> s[n..][i - n - 1] == s[i - 1];
  }

  lemma {:induction false} BodyLonger(s: Text)
    ensures |Body(s)| >= |s|
  {
    if StartsWithPair(s) {
      BodyLonger(s[2..]);
    } else if s != [] {
      EscapeMeans(s[0]);
      BodyLonger(s[1..]);
    }
  }

  /** A string is printed as it is exactly when no unit of it must be escaped; whole surrogate pairs need not be. */
  lemma {:induction false} PlainPrintsAsItself(s: Text)
    ensures Body(s) == s <==> forall i | 0 <= i < |s| :: !MustEscape(s, i)
  {
    hide MustEscape, Escape, IsHigh, IsLow;
    if s == [] {
    } else if StartsWithPair(s) {
      PairIsPlain(s);
      PlainPrintsAsItself(s[2..]);
      assert s == s[..2] + s[2..];
      forall i | 2 <= i < |s|
        ensures MustEscape(s, i) <==> MustEscape(s[2..], i - 2)
      {
        LaterAsBefore(s, 2, i);
      }
      LaterAll(s, 2);
    } else {
      FirstMustEscape(s);
      PlainPrintsAsItself(s[1..]);
      BodyLonger(s[1..]);
      assert s == [s[0]] + s[1..];
      forall i | 1 <= i < |s|
        ensures MustEscape(s, i) <==> MustEscape(s[1..], i - 1)
      {
        LaterAsBefore(s, 1, i);
      }
      LaterAll(s, 1);
    }
  }

  lemma PairIsPlain(s: Text)
    requires StartsWithPair(s)
    ensures !MustEscape(s, 0) && !MustEscape(s, 1)
  {
  }

  lemma FirstMustEscape(s: Text)
    requires s != [] && !StartsWithPair(s)
    ensures MustEscape(s, 0) <==> Escape(s[0]) != [s[0]]
    ensures Escape(s[0]) != [s[0]] ==> |Escape(s[0])| > 1
  {
  }

  lemma LaterAll(s: Text, n: nat)
    requires n <= |s| && forall i | n <= i < |s| :: MustEscape(s, i) <==> MustEscape(s[n..], i - n)
    ensures (forall i | n <= i < |s| :: !MustEscape(s, i)) <==> forall i | 0 <= i < |s[n..]| :: !MustEscape(s[n..], i)
  {
    hide MustEscape;
    forall i | 0 <= i < |s[n..]|
      ensures MustEscape(s[n..], i) <==> MustEscape(s, n + i)
    {
      assert MustEscape(s, n + i) <==> MustEscape(s[n..], n + i - n);
    }
  }

  /* ----- Values decode uniquely ----- */

  /** What can follow a value inside a larger text: nothing, or a closing or separating unit. */
  predicate Delimited(r: Text) {
    r == [] || r[0] == COMMA || r[0] == RIGHT_BRACKET || r[0] == RIGHT_BRACE
  }

  lemma NumberDetermines(t: Text, r: Text, t': Text, r': Text)
    requires IsNumberToken(t) && IsNumberToken(t') && Delimited(r) && Delimited(r')
    requires t + r == t' + r'
    ensures t == t' && r == r'
  {
    var whole := t + r;
    assert whole[..|t|] == t && whole[|t|..] == r && whole[..|t'|] == t' && whole[|t'|..] == r';
    if |t| < |t'| {
      assert false;
    } else if |t'| < |t| {
      assert false;
    }
  }

  /** The first unit of a printed value, which tells its kind. */
  function Head(v: Json): Unit {
    match v
    case Null | Overflow => NULL_TEXT[0]
    case Bool(b) => if b then TRUE_TEXT[0] else FALSE_TEXT[0]
    case Num(t) => if t == [] then 0 else t[0]
    case Str(_) => QUOTE
    case Arr(_) => LEFT_BRACKET
    case Obj(_) => LEFT_BRACE
  }

  lemma HeadOf(v: Json)
    requires WellFormed(v)
    ensures Canonical(v) != [] && Canonical(v)[0] == Head(v)
  {
  }

  ghost predicate SameKind(a: Json, b: Json) {
    (IsBlank(a) <==> IsBlank(b)) && (a.Bool? <==> b.Bool?) && (a.Num? <==> b.Num?) && (a.Str? <==> b.Str?) &&
    (a.Arr? <==> b.Arr?) && (a.Obj? <==> b.Obj?)
  }

  lemma KindDetermined(a: Json, r: Text, b: Json, r': Text)
    requires WellFormed(a) && WellFormed(b) && Canonical(a) + r == Canonical(b) + r'
    ensures SameKind(a, b) && (a.Bool? ==> a == b)
  {
    HeadOf(a);
    HeadOf(b);
    assert (Canonical(a) + r)[0] == Head(a) && (Canonical(b) + r')[0] == Head(b);
  }

  /* One level of printing, seen from the left end of a larger text. */

  lemma ArrUnfolds(a: Json, r: Text)
    requires a.Arr?
    ensures (Canonical(a) + r)[1..] == CanonicalItems(a, a.items) + ([RIGHT_BRACKET] + r)
  {
    Bracketed(LEFT_BRACKET, CanonicalItems(a, a.items), RIGHT_BRACKET, r);
  }

  lemma ObjUnfolds(a: Json, r: Text)
    requires a.Obj?
    ensures forall f | f in SortFields(a.fields) :: f.value < a
    ensures (Canonical(a) + r)[1..] == CanonicalFields(a, SortFields(a.fields)) + ([RIGHT_BRACE] + r)
  {
    SameMembers(SortFields(a.fields), a.fields);
    Bracketed(LEFT_BRACE, CanonicalFields(a, SortFields(a.fields)), RIGHT_BRACE, r);
  }

  lemma Bracketed(left: Unit, inner: Text, right: Unit, r: Text)
    ensures ([left] + inner + [right] + r)[1..] == inner + ([right] + r)
  {
  }

  lemma ItemsUnfold(a: Json, x: seq<Json>, r: Text)
    requires forall i | 0 <= i < |x| :: x[i] < a
    ensures x == [] ==> CanonicalItems(a, x) + r == r && ItemsTail(a, x) + r == r
    ensures x != [] ==> CanonicalItems(a, x) + r == Canonical(x[0]) + (ItemsTail(a, x[1..]) + r)
    ensures x != [] ==> ItemsTail(a, x) + r == [COMMA] + (Canonical(x[0]) + (ItemsTail(a, x[1..]) + r))
  {
    if x != [] {
      Assoc(Canonical(x[0]), ItemsTail(a, x[1..]), r);
      Assoc([COMMA], Canonical(x[0]), ItemsTail(a, x[1..]));
      Assoc([COMMA], Canonical(x[0]) + ItemsTail(a, x[1..]), r);
    }
  }

  /** One member and what follows it. */
  function Member(f: Field, r: Text): Text {
    Quote(f.key) + ([COLON] + (Canonical(f.value) + r))
  }

  lemma FieldsUnfold(a: Json, x: seq<Field>, r: Text)
    requires forall f | f in x :: f.value < a
    ensures x == [] ==> CanonicalFields(a, x) + r == r && FieldsTail(a, x) + r == r
    ensures x != [] ==> CanonicalFields(a, x) + r == Member(x[0], FieldsTail(a, x[1..]) + r)
    ensures x != [] ==> FieldsTail(a, x) + r == [COMMA] + Member(x[0], FieldsTail(a, x[1..]) + r)
  {
    if x != [] {
      var k, v, t := Quote(x[0].key), Canonical(x[0].value), FieldsTail(a, x[1..]);
      MemberAssoc(k, v, t, r);
      Assoc([COMMA], k, [COLON]);
      Assoc([COMMA], k + [COLON], v);
      Assoc([COMMA], k + [COLON] + v, t);
      Assoc([COMMA], k + [COLON] + v + t, r);
    }
  }

  lemma MemberAssoc(k: Text, v: Text, t: Text, r: Text)
    ensures k + [COLON] + v + t + r == k + ([COLON] + (v + (t + r)))
  {
    Assoc(k + [COLON] + v, t, r);
    Assoc(k + [COLON], v, t + r);
    Assoc(k, [COLON], v + (t + r));
  }

  /** A printed value determines the value, up to key order, and what follows it. */
  lemma {:induction false} ValueDetermines(a: Json, r: Text, b: Json, r': Text)
    requires WellFormed(a) && WellFormed(b) && Delimited(r) && Delimited(r')
    requires Canonical(a) + r == Canonical(b) + r'
    ensures Same(a, b) && r == r'
    decreases a
  {
    KindDetermined(a, r, b, r');
    if IsBlank(a) || a.Bool? {
      Cancel(Canonical(a), r, r');
    } else if a.Num? {
      NumberDetermines(a.token, r, b.token, r');
    } else if a.Str? {
      QuoteDetermines(a.s, r, b.s, r');
    } else if a.Arr? {
      ArrUnfolds(a, r);
      ArrUnfolds(b, r');
      ItemsDetermine(a, a.items, [RIGHT_BRACKET] + r, b, b.items, [RIGHT_BRACKET] + r', true);
      Cancel([RIGHT_BRACKET], r, r');
    } else {
      ObjUnfolds(a, r);
      ObjUnfolds(b, r');
      var x, y := SortFields(a.fields), SortFields(b.fields);
      SameMembers(x, a.fields);
      SameMembers(y, b.fields);
      FieldsDetermine(a, x, [RIGHT_BRACE] + r, b, y, [RIGHT_BRACE] + r', true);
      Cancel([RIGHT_BRACE], r, r');
      SameFromSorted(a.fields, x, b.fields, y);
    }
  }

  lemma Cancel(p: Text, r: Text, r': Text)
    requires p + r == p + r'
    ensures r == r'
  {
    assert (p + r)[|p|..] == r && (p + r')[|p|..] == r';
  }

  ghost function PrintedItems(a: Json, x: seq<Json>, first: bool): Text
    requires forall i | 0 <= i < |x| :: x[i] < a
  {
    if first then CanonicalItems(a, x) else ItemsTail(a, x)
  }

  ghost function PrintedFields(a: Json, x: seq<Field>, first: bool): Text
    requires forall f | f in x :: f.value < a
  {
    if first then CanonicalFields(a, x) else FieldsTail(a, x)
  }

  lemma {:induction false} ItemsDetermine(a: Json, x: seq<Json>, r: Text, b: Json, y: seq<Json>, r': Text, first: bool)
    requires forall i | 0 <= i < |x| :: x[i] < a && WellFormed(x[i])
    requires forall i | 0 <= i < |y| :: y[i] < b && WellFormed(y[i])
    requires r != [] && r[0] == RIGHT_BRACKET && r' != [] && r'[0] == RIGHT_BRACKET
    requires PrintedItems(a, x, first) + r == PrintedItems(b, y, first) + r'
    ensures |x| == |y| && (forall i | 0 <= i < |x| :: Same(x[i], y[i])) && r == r'
    decreases a, |x|
  {
    if x != [] && y != [] {
      ItemsStep(a, x, r, b, y, r', first);
      ValueDetermines(x[0], ItemsTail(a, x[1..]) + r, y[0], ItemsTail(b, y[1..]) + r');
      ItemsDetermine(a, x[1..], r, b, y[1..], r', false);
    } else {
      ItemsHead(a, x, r, first);
      ItemsHead(b, y, r', first);
    }
  }

  lemma ItemsStep(a: Json, x: seq<Json>, r: Text, b: Json, y: seq<Json>, r': Text, first: bool)
    requires (forall i | 0 <= i < |x| :: x[i] < a) && (forall i | 0 <= i < |y| :: y[i] < b)
    requires Delimited(r) && Delimited(r') && x != [] && y != []
    requires PrintedItems(a, x, first) + r == PrintedItems(b, y, first) + r'
    ensures Canonical(x[0]) + (ItemsTail(a, x[1..]) + r) == Canonical(y[0]) + (ItemsTail(b, y[1..]) + r')
    ensures Delimited(ItemsTail(a, x[1..]) + r) && Delimited(ItemsTail(b, y[1..]) + r')
  {
    ItemsUnfold(a, x, r);
    ItemsUnfold(b, y, r');
    var t, t' := ItemsTail(a, x[1..]) + r, ItemsTail(b, y[1..]) + r';
    if !first {
      Cancel([COMMA], Canonical(x[0]) + t, Canonical(y[0]) + t');
    }
    TailDelimited(a, x[1..], r);
    TailDelimited(b, y[1..], r');
  }

  lemma TailDelimited(a: Json, x: seq<Json>, r: Text)
    requires (forall i | 0 <= i < |x| :: x[i] < a) && Delimited(r)
    ensures Delimited(ItemsTail(a, x) + r)
  {
    ItemsUnfold(a, x, r);
  }

  lemma ItemsHead(a: Json, x: seq<Json>, r: Text, first: bool)
    requires forall i | 0 <= i < |x| :: x[i] < a && WellFormed(x[i])
    requires r != []
    ensures PrintedItems(a, x, first) + r != []
    ensures (PrintedItems(a, x, first) + r)[0] == if x == [] then r[0] else if first then Head(x[0]) else COMMA
    ensures x == [] ==> PrintedItems(a, x, first) + r == r
  {
    if x != [] { HeadOf(x[0]); }
  }

  lemma FieldsHead(a: Json, x: seq<Field>, r: Text, first: bool)
    requires forall f | f in x :: f.value < a
    requires r != []
    ensures PrintedFields(a, x, first) + r != []
    ensures (PrintedFields(a, x, first) + r)[0] == if x == [] then r[0] else if first then QUOTE else COMMA
    ensures x == [] ==> PrintedFields(a, x, first) + r == r
  {
  }

  /** Two member lists that print alike have the same keys in the same order and the same values. */
  ghost predicate Aligned(x: seq<Field>, y: seq<Field>) {
    |x| == |y| && forall i | 0 <= i < |x| :: x[i].key == y[i].key && Same(x[i].value, y[i].value)
  }

  lemma {:induction false} FieldsDetermine(a: Json, x: seq<Field>, r: Text, b: Json, y: seq<Field>, r': Text,
                                           first: bool)
    requires forall f | f in x :: f.value < a && WellFormed(f.value)
    requires forall f | f in y :: f.value < b && WellFormed(f.value)
    requires r != [] && r[0] == RIGHT_BRACE && r' != [] && r'[0] == RIGHT_BRACE
    requires PrintedFields(a, x, first) + r == PrintedFields(b, y, first) + r'
    ensures Aligned(x, y) && r == r'
    decreases a, |x|
  {
    if x != [] && y != [] {
      FieldsStep(a, x, r, b, y, r', first);
      ValueDetermines(x[0].value, FieldsTail(a, x[1..]) + r, y[0].value, FieldsTail(b, y[1..]) + r');
      FieldsDetermine(a, x[1..], r, b, y[1..], r', false);
    } else {
      FieldsHead(a, x, r, first);
      FieldsHead(b, y, r', first);
    }
  }

  lemma FieldsStep(a: Json, x: seq<Field>, r: Text, b: Json, y: seq<Field>, r': Text, first: bool)
    requires (forall f | f in x :: f.value < a) && (forall f | f in y :: f.value < b)
    requires Delimited(r) && Delimited(r') && x != [] && y != []
    requires PrintedFields(a, x, first) + r == PrintedFields(b, y, first) + r'
    ensures x[0].key == y[0].key
    ensures Canonical(x[0].value) + (FieldsTail(a, x[1..]) + r) == Canonical(y[0].value) + (FieldsTail(b, y[1..]) + r')
    ensures Delimited(FieldsTail(a, x[1..]) + r) && Delimited(FieldsTail(b, y[1..]) + r')
  {
    FieldsUnfold(a, x, r);
    FieldsUnfold(b, y, r');
    var t, t' := FieldsTail(a, x[1..]) + r, FieldsTail(b, y[1..]) + r';
    if !first {
      Cancel([COMMA], Member(x[0], t), Member(y[0], t'));
    }
    MemberDetermines(x[0], t, y[0], t');
    FieldsUnfold(a, x[1..], r);
    FieldsUnfold(b, y[1..], r');
  }

  lemma MemberDetermines(f: Field, t: Text, g: Field, t': Text)
    requires Member(f, t) == Member(g, t')
    ensures f.key == g.key && Canonical(f.value) + t == Canonical(g.value) + t'
  {
    var rest, rest' := [COLON] + (Canonical(f.value) + t), [COLON] + (Canonical(g.value) + t');
    QuoteDetermines(f.key, rest, g.key, rest');
    Cancel([COLON], Canonical(f.value) + t, Canonical(g.value) + t');
  }

  lemma SameFromSorted(f: seq<Field>, x: seq<Field>, g: seq<Field>, y: seq<Field>)
    requires (forall p :: p in f <==> p in x) && (forall p :: p in g <==> p in y)
    requires DistinctKeys(f) && DistinctKeys(g) && Aligned(x, y)
    ensures Same(Obj(f), Obj(g))
  {
    forall k
      ensures k in Keys(f) <==> k in Keys(g)
    {
      if k in Keys(f) {
        var p :| p in f && p.key == k;
        var i :| 0 <= i < |x| && x[i] == p;
        assert y[i] in g && y[i].key == k;
      }
      if k in Keys(g) {
        var q :| q in g && q.key == k;
        var i :| 0 <= i < |y| && y[i] == q;
        assert x[i] in f && x[i].key == k;
      }
    }
    forall p, q | p in f && q in g && p.key == q.key
      ensures Same(p.value, q.value)
    {
      var i :| 0 <= i < |x| && x[i] == p;
      assert y[i] in g && y[i].key == q.key;
      assert y[i] == q;
    }
  }

  /* ----- The same value prints the same text ----- */

  lemma {:induction false} LessTrichotomy(a: Text, b: Text)
    ensures (Less(a, b) ==> a != b && !Less(b, a)) && (a != b ==> Less(a, b) || Less(b, a))
  {
    if a != [] && b != [] {
      LessTrichotomy(a[1..], b[1..]);
      assert a == [a[0]] + a[1..] && b == [b[0]] + b[1..];
    }
  }

  lemma {:induction false} LessTransitive(a: Text, b: Text, c: Text)
    requires Less(a, b) && Less(b, c)
    ensures Less(a, c)
  {
    if a != [] && a[0] == b[0] == c[0] {
      LessTransitive(a[1..], b[1..], c[1..]);
    }
  }

  ghost predicate Sorted(fields: seq<Field>) {
    forall i, j | 0 <= i < j < |fields| :: Less(fields[i].key, fields[j].key)
  }

  lemma {:induction false} InsertSorts(f: Field, sorted: seq<Field>)
    requires Sorted(sorted) && forall g | g in sorted :: g.key != f.key
    ensures Sorted(Insert(f, sorted))
  {
    if sorted == [] {
    } else if Less(f.key, sorted[0].key) {
      forall j | 0 <= j < |sorted|
        ensures Less(f.key, sorted[j].key)
      {
        if j > 0 { LessTransitive(f.key, sorted[0].key, sorted[j].key); }
      }
    } else {
      InsertSorts(f, sorted[1..]);
      var r := Insert(f, sorted[1..]);
      LessTrichotomy(f.key, sorted[0].key);
      forall g | g in r
        ensures Less(sorted[0].key, g.key)
      {
        assert g in multiset(r);
        assert g == f || g in multiset(sorted[1..]);
      }
    }
  }

  lemma {:induction false} SortSorts(fields: seq<Field>)
    requires DistinctKeys(fields)
    ensures Sorted(SortFields(fields))
  {
    if fields != [] {
      var rest := fields[1..];
      SortSorts(rest);
      SameMembers(SortFields(rest), rest);
      InsertSorts(fields[0], SortFields(rest));
    }
  }

  /** Two sorted member lists over the same keys agree key by key. */
  lemma {:induction false} SortedKeysAgree(x: seq<Field>, y: seq<Field>)
    requires Sorted(x) && Sorted(y) && Keys(x) == Keys(y)
    ensures |x| == |y| && forall i | 0 <= i < |x| :: x[i].key == y[i].key
  {
    if x == [] {
      assert Keys(x) == {};
      assert forall f | f in y :: f.key in Keys(y);
    } else {
      assert x[0].key in Keys(x) && x[0].key in Keys(y);
      assert y != [];
      assert y[0].key in Keys(y) && y[0].key in Keys(x);
      var i :| 0 <= i < |y| && y[i].key == x[0].key;
      var j :| 0 <= j < |x| && x[j].key == y[0].key;
      LessTrichotomy(x[0].key, y[0].key);
      assert x[0].key == y[0].key;
      KeysOfTail(x);
      KeysOfTail(y);
      SortedKeysAgree(x[1..], y[1..]);
    }
  }

  lemma KeysOfTail(x: seq<Field>)
    requires Sorted(x) && x != []
    ensures Keys(x[1..]) == Keys(x) - {x[0].key}
  {
    forall k | k in Keys(x[1..])
      ensures k in Keys(x) && k != x[0].key
    {
      var i :| 0 <= i < |x[1..]| && x[1..][i].key == k;
      LessTrichotomy(x[0].key, x[i + 1].key);
    }
    forall k | k in Keys(x) && k != x[0].key
      ensures k in Keys(x[1..])
    {
      var i :| 0 <= i < |x| && x[i].key == k;
      assert x[1..][i - 1] == x[i];
    }
  }

  lemma {:induction false} SameValueSameText(a: Json, b: Json)
    requires WellFormed(a) && WellFormed(b) && Same(a, b)
    ensures Canonical(a) == Canonical(b)
    decreases a
  {
    match a
    case Arr(x) =>
      forall i | 0 <= i < |x|
        ensures Canonical(x[i]) == Canonical(b.items[i])
      {
        SameValueSameText(x[i], b.items[i]);
      }
      ItemsPrintAlike(a, x, b, b.items);
    case Obj(f) =>
      var x, y := SortFields(f), SortFields(b.fields);
      SameMembers(x, f);
      SameMembers(y, b.fields);
      SortSorts(f);
      SortSorts(b.fields);
      assert Keys(x) == Keys(f) && Keys(y) == Keys(b.fields);
      SortedKeysAgree(x, y);
      forall i | 0 <= i < |x|
        ensures Canonical(x[i].value) == Canonical(y[i].value)
      {
        assert x[i] in f && y[i] in b.fields;
        SameValueSameText(x[i].value, y[i].value);
      }
      FieldsPrintAlike(a, x, b, y);
    case _ =>
  }

  lemma {:induction false} ItemsPrintAlike(a: Json, x: seq<Json>, b: Json, y: seq<Json>)
    requires (forall i | 0 <= i < |x| :: x[i] < a) && (forall i | 0 <= i < |y| :: y[i] < b)
    requires |x| == |y| && forall i | 0 <= i < |x| :: Canonical(x[i]) == Canonical(y[i])
    ensures CanonicalItems(a, x) == CanonicalItems(b, y) && ItemsTail(a, x) == ItemsTail(b, y)
  {
    if x != [] {
      ItemsPrintAlike(a, x[1..], b, y[1..]);
    }
  }

  lemma {:induction false} FieldsPrintAlike(a: Json, x: seq<Field>, b: Json, y: seq<Field>)
    requires (forall f | f in x :: f.value < a) && (forall f | f in y :: f.value < b)
    requires |x| == |y|
    requires forall i | 0 <= i < |x| :: x[i].key == y[i].key && Canonical(x[i].value) == Canonical(y[i].value)
    ensures CanonicalFields(a, x) == CanonicalFields(b, y) && FieldsTail(a, x) == FieldsTail(b, y)
  {
    if x != [] {
      FieldsPrintAlike(a, x[1..], b, y[1..]);
    }
  }

  /** Comparing canonical texts is comparing JSON values up to key order, with numbers too large to hold as nulls. */
  lemma CanonicalTextIsEquality(a: Json, b: Json)
    requires WellFormed(a) && WellFormed(b)
    ensures Canonical(a) == Canonical(b) <==> Same(a, b)
  {
    if Canonical(a) == Canonical(b) {
      assert Canonical(a) + [] == Canonical(b) + [];
      ValueDetermines(a, [], b, []);
    }
    if Same(a, b) {
      SameValueSameText(a, b);
    }
  }
}
