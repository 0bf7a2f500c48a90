/** The canonical text of a tool input and the effect preimage built from it
    (packages/core/src/policy.ts:39-51). Text is a sequence of UTF-16 code units, as in
    JavaScript. Strings are written as JSON.stringify writes them, within section 7 of RFC 8259. */
module CanonicalJson {
  import opened Protocol

  type Unit = n: nat | n < 0x1_0000
  type Text = seq<Unit>

  datatype Field = Field(key: Text, value: Json)

  /** A number is represented by the text JavaScript prints for it, except for the two kinds that
      reading a number can yield and printing does not keep: the negative zero of "-0" and the
      infinities of texts like "1e400". */
  datatype Json =
    | Null
    | Bool(b: bool)
    | Number(text: Text)
    | NegativeZero
    | Infinite(negative: bool)
    | String(s: Text)
    | Array(items: seq<Json>)
    | Object(fields: seq<Field>)

  const QUOTE: Unit := 0x22
  const BACKSLASH: Unit := 0x5C
  const COMMA: Unit := 0x2C
  const COLON: Unit := 0x3A
  const OPEN_ARRAY: Unit := 0x5B
  const CLOSE_ARRAY: Unit := 0x5D
  const OPEN_OBJECT: Unit := 0x7B
  const CLOSE_OBJECT: Unit := 0x7D
  const MINUS: Unit := 0x2D
  const PLUS: Unit := 0x2B
  const POINT: Unit := 0x2E
  const NUL: Unit := 0

  // ------------------------------------------------------------------ valid JSON values

  predicate Digit(u: Unit) { 0x30 <= u <= 0x39 }

  predicate Digits(t: Text) { |t| > 0 && forall i :: 0 <= i < |t| ==> Digit(t[i]) }

  /** The productions int, frac and exp of section 6 of RFC 8259. */
  predicate IsInt(t: Text) { Digits(t) && (t[0] == 0x30 ==> |t| == 1) }

  predicate IsFrac(t: Text) { t == [] || (t[0] == POINT && Digits(t[1..])) }

  predicate IsExp(t: Text) {
    t == [] || (|t| >= 2 && t[0] in {0x65, 0x45} && (Digits(t[1..]) || (t[1] in {MINUS, PLUS} && Digits(t[2..]))))
  }

  /** number = [ minus ] int [ frac ] [ exp ] */
  predicate IsNumber(t: Text) {
    var body := if t != [] && t[0] == MINUS then t[1..] else t;
    exists i, j | 0 <= i <= j <= |body| :: IsInt(body[..i]) && IsFrac(body[i..j]) && IsExp(body[j..])
  }

  predicate DistinctKeys(fields: seq<Field>) {
    forall i, j :: 0 <= i < j < |fields| ==> fields[i].key != fields[j].key
  }

  predicate Valid(v: Json) {
    match v
    case Null => true
    case Bool(_) => true
    case String(_) => true
    case Number(t) => IsNumber(t)
    case NegativeZero => true
    case Infinite(_) => true
    case Array(items) => forall i :: 0 <= i < |items| ==> Valid(items[i])
    case Object(fields) => DistinctKeys(fields) && forall i :: 0 <= i < |fields| ==> Valid(fields[i].value)
  }

  function KeySet(fields: seq<Field>): set<Text> {
    set i | 0 <= i < |fields| :: fields[i].key
  }

  const ZERO: Text := [0x30]

  /** What is left of a value without parts once it is printed. */
  function Leaf(v: Json): Json {
    match v
    case NegativeZero => Number(ZERO)
    case Infinite(_) => Null
    case _ => v
  }

  /** Equal up to the order of object keys, the sign of zero, and infinities counting as null. */
  ghost predicate Equivalent(a: Json, b: Json) {
    match a
    case Array(items) =>
      b.Array? && |items| == |b.items| && forall i :: 0 <= i < |items| ==> Equivalent(items[i], b.items[i])
    case Object(fields) =>
      && b.Object? && KeySet(fields) == KeySet(b.fields)
      && forall i :: 0 <= i < |fields| ==> HasMatch(fields[i], b.fields)
    case _ => Leaf(a) == Leaf(b)
  }

  ghost predicate HasMatch(f: Field, fields: seq<Field>) {
    exists j :: 0 <= j < |fields| && f.key == fields[j].key && Equivalent(f.value, fields[j].value)
  }

  // ------------------------------------------------------------------------- strings

  predicate High(u: Unit) { 0xD800 <= u <= 0xDBFF }

  predicate Low(u: Unit) { 0xDC00 <= u <= 0xDFFF }

  function HexDigit(d: nat): Unit
    requires d < 16
  {
    if d < 10 then 0x30 + d else 0x61 + d - 10
  }

  function UnicodeEscape(u: Unit): Text {
    [BACKSLASH, 0x75, HexDigit(u / 4096), HexDigit(u / 256 % 16), HexDigit(u / 16 % 16), HexDigit(u % 16)]
  }

  /** The letter of a two-character escape. */
  function Letter(u: Unit): Option<Unit> {
    if u == 0x08 then Some(0x62)
    else if u == 0x09 then Some(0x74)
    else if u == 0x0A then Some(0x6E)
    else if u == 0x0C then Some(0x66)
    else if u == 0x0D then Some(0x72)
    else if u == QUOTE || u == BACKSLASH then Some(u)
    else None
  }

  function EscapeUnit(u: Unit): Text {
    if Letter(u).Some? then [BACKSLASH, Letter(u).value]
    else if u < 0x20 || High(u) || Low(u) then UnicodeEscape(u)
    else [u]
  }

  /** A surrogate pair is written as it is, a lone surrogate is escaped. */
  function Escape(s: Text): Text {
    if s == [] then []
    else if |s| >= 2 && High(s[0]) && Low(s[1]) then [s[0], s[1]] + Escape(s[2..])
    else EscapeUnit(s[0]) + Escape(s[1..])
  }

  /** `JSON.stringify` of a string. */
  function Quote(s: Text): Text {
    [QUOTE] + Escape(s) + [QUOTE]
  }

  // ------------------------------------------------- reading strings, section 7 of RFC 8259

  function HexValue(u: Unit): Option<nat> {
    if Digit(u) then Some(u - 0x30)
    else if 0x61 <= u <= 0x66 then Some(u - 0x61 + 10)
    else if 0x41 <= u <= 0x46 then Some(u - 0x41 + 10)
    else None
  }

  function Unletter(u: Unit): Option<Unit> {
    if u == 0x62 then Some(0x08)
    else if u == 0x74 then Some(0x09)
    else if u == 0x6E then Some(0x0A)
    else if u == 0x66 then Some(0x0C)
    else if u == 0x72 then Some(0x0D)
    else if u == QUOTE || u == BACKSLASH || u == 0x2F then Some(u)
    else None
  }

  /** The first unit of an escaped text and how many units it took. */
  function ReadUnit(t: Text): (r: Option<(Unit, nat)>)
    requires t != []
    ensures r.Some? ==> 1 <= r.value.1 <= |t|
  {
    if t[0] < 0x20 || t[0] == QUOTE then None
    else if t[0] != BACKSLASH then Some((t[0], 1))
    else if |t| < 2 then None
    else if t[1] != 0x75 then
      (if Unletter(t[1]).Some? then Some((Unletter(t[1]).value, 2)) else None)
    else if |t| < 6 then None
    else
      var a, b, c, d := HexValue(t[2]), HexValue(t[3]), HexValue(t[4]), HexValue(t[5]);
      if a.None? || b.None? || c.None? || d.None? then None
      else
        var u := a.value * 4096 + b.value * 256 + c.value * 16 + d.value;
        if u < 0x1_0000 then Some((u, 6)) else None
  }

  /** Reads up to the closing quote: the string and what follows. */
  function ReadString(t: Text): Option<(Text, Text)>
    decreases |t|
  {
    if t == [] then None
    else if t[0] == QUOTE then Some(([], t[1..]))
    else
      var first := ReadUnit(t);
      if first.None? then None
      else
        var rest := ReadString(t[first.value.1..]);
        if rest.None? then None else Some(([first.value.0] + rest.value.0, rest.value.1))
  }

  lemma HexReadsBack(d: nat)
    requires d < 16
    ensures HexValue(HexDigit(d)) == Some(d)
  {
  }

  lemma DigitsOf(u: nat)
    requires u < 0x1_0000
    ensures u / 4096 < 16 && u / 4096 * 4096 + u / 256 % 16 * 256 + u / 16 % 16 * 16 + u % 16 == u
  {
    var a, b, c := u / 16, u / 256, u / 4096;
    assert u == a * 16 + u % 16;
    assert b == a / 16 && a == b * 16 + a % 16;
    assert c == b / 16 && b == c * 16 + b % 16;
  }

  lemma ReadsUnicodeEscape(u: Unit, rest: Text)
    ensures ReadUnit(UnicodeEscape(u) + rest) == Some((u, 6))
  {
    hide HexValue, HexDigit, Unletter;
    DigitsOf(u);
    HexReadsBack(u / 4096);
    HexReadsBack(u / 256 % 16);
    HexReadsBack(u / 16 % 16);
    HexReadsBack(u % 16);
    var t := UnicodeEscape(u) + rest;
    assert t[0] == BACKSLASH && t[1] == 0x75;
    assert t[2] == HexDigit(u / 4096) && t[3] == HexDigit(u / 256 % 16);
    assert t[4] == HexDigit(u / 16 % 16) && t[5] == HexDigit(u % 16);
  }

  lemma ReadsEscapedUnit(u: Unit, rest: Text)
    ensures ReadUnit(EscapeUnit(u) + rest) == Some((u, |EscapeUnit(u)|))
    ensures EscapeUnit(u)[0] != QUOTE
  {
    hide HexValue, HexDigit;
    if Letter(u).Some? {
      var t := [BACKSLASH, Letter(u).value] + rest;
      assert t[0] == BACKSLASH && t[1] == Letter(u).value;
    } else if u < 0x20 || High(u) || Low(u) {
      ReadsUnicodeEscape(u, rest);
    } else {
      assert ([u] + rest)[0] == u;
    }
  }

  /** Reading one unit and then the rest. */
  lemma ReadsOn(head: Text, tail: Text, u: Unit, s: Text, rest: Text)
    requires head != [] && head[0] != QUOTE && ReadUnit(head + tail) == Some((u, |head|))
    requires ReadString(tail) == Some((s, rest))
    ensures ReadString(head + tail) == Some(([u] + s, rest))
  {
    hide ReadUnit;
    assert (head + tail)[|head|..] == tail;
  }

  /** Reading undoes writing. */
  lemma {:induction false} ReadsEscaped(s: Text, rest: Text)
    ensures ReadString(Escape(s) + [QUOTE] + rest) == Some((s, rest))
  {
    hide ReadString, EscapeUnit, UnicodeEscape;
    if s == [] {
      ReadsQuote(rest);
      assert Escape(s) + [QUOTE] + rest == [QUOTE] + rest;
    } else if |s| >= 2 && High(s[0]) && Low(s[1]) {
      ReadsEscaped(s[2..], rest);
      var tail := Escape(s[2..]) + [QUOTE] + rest;
      ReadsPair(s, tail, rest);
      assert Escape(s) + [QUOTE] + rest == [s[0]] + ([s[1]] + tail);
    } else {
      ReadsEscaped(s[1..], rest);
      var tail := Escape(s[1..]) + [QUOTE] + rest;
      ReadsFirst(s, tail, rest);
      assert Escape(s) + [QUOTE] + rest == EscapeUnit(s[0]) + tail;
    }
  }

  /** A surrogate pair is written raw. */
  lemma ReadsPair(s: Text, tail: Text, rest: Text)
    requires |s| >= 2 && High(s[0]) && Low(s[1]) && ReadString(tail) == Some((s[2..], rest))
    ensures ReadString([s[0]] + ([s[1]] + tail)) == Some((s, rest))
  {
    hide ReadString;
    ReadsRaw(s[1], tail);
    ReadsOn([s[1]], tail, s[1], s[2..], rest);
    ReadsRaw(s[0], [s[1]] + tail);
    ReadsOn([s[0]], [s[1]] + tail, s[0], [s[1]] + s[2..], rest);
    assert s == [s[0]] + ([s[1]] + s[2..]);
  }

  lemma ReadsFirst(s: Text, tail: Text, rest: Text)
    requires s != [] && ReadString(tail) == Some((s[1..], rest))
    ensures ReadString(EscapeUnit(s[0]) + tail) == Some((s, rest))
  {
    hide ReadString, EscapeUnit;
    ReadsEscapedUnit(s[0], tail);
    ReadsOn(EscapeUnit(s[0]), tail, s[0], s[1..], rest);
    assert s == [s[0]] + s[1..];
  }

  lemma ReadsQuote(rest: Text)
    ensures ReadString([QUOTE] + rest) == Some(([], rest))
  {
    assert ([QUOTE] + rest)[1..] == rest;
  }

  lemma ReadsRaw(u: Unit, tail: Text)
    requires u >= 0x20 && u != QUOTE && u != BACKSLASH
    ensures ReadUnit([u] + tail) == Some((u, 1))
  {
    assert ([u] + tail)[0] == u;
  }

  lemma QuotesApart(s: Text, t: Text, x: Text, y: Text)
    requires Quote(s) + x == Quote(t) + y
    ensures s == t && x == y
  {
    assert (Quote(s) + x)[1..] == Escape(s) + [QUOTE] + x;
    assert (Quote(t) + y)[1..] == Escape(t) + [QUOTE] + y;
    ReadsEscaped(s, x);
    ReadsEscaped(t, y);
  }

  /** No text that reads as the unit is shorter than the one it is written as, except for surrogates, which
      are always escaped when alone; hexadecimal digits are in lower case. */
  lemma EscapesAreShortest(u: Unit, t: Text)
    requires t != [] && ReadUnit(t) == Some((u, |t|)) && !High(u) && !Low(u)
    ensures |EscapeUnit(u)| <= |t|
    ensures |EscapeUnit(u)| == 6 ==> forall i :: 0 <= i < 6 ==> !(0x41 <= EscapeUnit(u)[i] <= 0x46)
  {
  }

  // --------------------------------------------------------------------- sorting the keys

  /** The order of Array.prototype.sort on strings: by code unit. */
  predicate Less(a: Text, b: Text)
    decreases |a|
  {
    b != [] && (a == [] || a[0] < b[0] || (a[0] == b[0] && Less(a[1..], b[1..])))
  }

  /** A proper prefix, or smaller in the first unit that differs. */
  predicate Lexicographic(a: Text, b: Text) {
    exists n | 0 <= n <= |a| && n <= |b| ::
      a[..n] == b[..n] && (if n == |a| then n < |b| else n < |b| && a[n] < b[n])
  }

  lemma {:induction false} LessIsLexicographic(a: Text, b: Text)
    ensures Less(a, b) <==> Lexicographic(a, b)
    decreases |a|
  {
    if a != [] && b != [] && a[0] == b[0] {
      LessIsLexicographic(a[1..], b[1..]);
      if Lexicographic(a[1..], b[1..]) {
        var n :| 0 <= n <= |a[1..]| && n <= |b[1..]| && a[1..][..n] == b[1..][..n]
                 && (if n == |a[1..]| then n < |b[1..]| else n < |b[1..]| && a[1..][n] < b[1..][n]);
        assert a[..n + 1] == [a[0]] + a[1..][..n] && b[..n + 1] == [b[0]] + b[1..][..n];
      }
      if Lexicographic(a, b) {
        var n :| 0 <= n <= |a| && n <= |b| && a[..n] == b[..n]
                 && (if n == |a| then n < |b| else n < |b| && a[n] < b[n]);
        assert n > 0 && a[1..][..n - 1] == a[..n][1..] && b[1..][..n - 1] == b[..n][1..];
      }
    } else {
      assert forall n :: 0 < n <= |a| && n <= |b| ==> a[..n][0] == a[0] && b[..n][0] == b[0];
      assert a[..0] == b[..0];
    }
  }

  lemma {:induction false} LessIsAnOrder(a: Text, b: Text, c: Text)
    ensures !Less(a, a)
    ensures Less(a, b) && Less(b, c) ==> Less(a, c)
    ensures a == b || Less(a, b) || Less(b, a)
    decreases |a|
  {
    if a != [] {
      LessIsAnOrder(a[1..], if b == [] then [] else b[1..], if c == [] then [] else c[1..]);
      if b != [] {
        assert a == [a[0]] + a[1..] && b == [b[0]] + b[1..];
      }
    }
  }

  predicate Increasing(ks: seq<Text>) {
    forall i, j :: 0 <= i < j < |ks| ==> Less(ks[i], ks[j])
  }

  function Elements(ks: seq<Text>): set<Text> {
    set k | k in ks
  }

  function Insert(k: Text, ks: seq<Text>): seq<Text> {
    if ks == [] then [k]
    else if Less(ks[0], k) then [ks[0]] + Insert(k, ks[1..])
    else [k] + ks
  }

  function SortKeys(ks: seq<Text>): seq<Text> {
    if ks == [] then [] else Insert(ks[0], SortKeys(ks[1..]))
  }

  lemma {:induction false} InsertKeepsOrder(k: Text, ks: seq<Text>)
    requires Increasing(ks) && k !in ks
    ensures Increasing(Insert(k, ks)) && Elements(Insert(k, ks)) == Elements(ks) + {k}
  {
    if ks != [] {
      assert ks == [ks[0]] + ks[1..];
      if Less(ks[0], k) {
        InsertKeepsOrder(k, ks[1..]);
        var tail := Insert(k, ks[1..]);
        forall j | 0 <= j < |tail|
          ensures Less(ks[0], tail[j])
        {
          assert tail[j] in Elements(tail);
        }
        assert Elements([ks[0]] + tail) == {ks[0]} + Elements(tail);
        assert Elements(ks) == {ks[0]} + Elements(ks[1..]);
      } else {
        LessIsAnOrder(k, ks[0], k);
        forall j | 0 <= j < |ks|
          ensures Less(k, ks[j])
        {
          LessIsAnOrder(k, ks[0], ks[j]);
        }
      }
    }
  }

  lemma {:induction false} SortedKeys(ks: seq<Text>)
    requires forall i, j :: 0 <= i < j < |ks| ==> ks[i] != ks[j]
    ensures Increasing(SortKeys(ks)) && Elements(SortKeys(ks)) == Elements(ks)
  {
    if ks != [] {
      SortedKeys(ks[1..]);
      var tail := SortKeys(ks[1..]);
      assert ks[0] !in Elements(tail);
      InsertKeepsOrder(ks[0], tail);
      assert ks == [ks[0]] + ks[1..];
    }
  }

  /** A set of keys has one increasing enumeration. */
  lemma {:induction false} IncreasingIsUnique(ks: seq<Text>, ls: seq<Text>)
    requires Increasing(ks) && Increasing(ls) && Elements(ks) == Elements(ls)
    ensures ks == ls
  {
    if ks == [] {
      assert forall i :: 0 <= i < |ls| ==> ls[i] in Elements(ls);
    } else {
      assert ks[0] in Elements(ks) && ks[0] in ls;
      assert ls[0] in Elements(ls) && ls[0] in ks;
      assert ks[0] == ls[0] by {
        var i :| 0 <= i < |ls| && ls[i] == ks[0];
        var j :| 0 <= j < |ks| && ks[j] == ls[0];
        if i > 0 && j > 0 {
          LessIsAnOrder(ls[0], ks[0], ls[0]);
        }
      }
      assert ks == [ks[0]] + ks[1..] && ls == [ls[0]] + ls[1..];
      LessIsAnOrder(ks[0], [], []);
      assert ks[0] !in ks[1..] && ls[0] !in ls[1..];
      assert Elements(ks[1..]) == Elements(ks) - {ks[0]};
      assert Elements(ls[1..]) == Elements(ls) - {ls[0]};
      IncreasingIsUnique(ks[1..], ls[1..]);
    }
  }

  // -------------------------------------------------------------------- the canonical text

  function Keys(fields: seq<Field>): (r: seq<Text>)
    ensures |r| == |fields| && forall i :: 0 <= i < |r| ==> r[i] == fields[i].key
  {
    seq(|fields|, i requires 0 <= i < |fields| => fields[i].key)
  }

  predicate HasKey(v: Json, key: Text) {
    v.Object? && exists i :: 0 <= i < |v.fields| && v.fields[i].key == key
  }

  function IndexOfKey(fields: seq<Field>, key: Text): (r: nat)
    requires exists i :: 0 <= i < |fields| && fields[i].key == key
    ensures r < |fields| && fields[r].key == key
  {
    if fields[0].key == key then 0 else 1 + IndexOfKey(fields[1..], key)
  }

  /** The value of a property. */
  function Get(v: Json, key: Text): (r: Json)
    requires HasKey(v, key)
    ensures r < v && exists i :: 0 <= i < |v.fields| && v.fields[i] == Field(key, r)
  {
    v.fields[IndexOfKey(v.fields, key)].value
  }

  function SortedKeysOf(v: Json): (r: seq<Text>)
    requires Valid(v) && v.Object?
    ensures Increasing(r) && Elements(r) == KeySet(v.fields) && forall k :: k in r ==> HasKey(v, k)
  {
    SortedKeys(Keys(v.fields));
    KeysAreKeySet(v.fields);
    var r := SortKeys(Keys(v.fields));
    assert forall k :: k in r ==> k in Elements(r);
    r
  }

  lemma KeysAreKeySet(fields: seq<Field>)
    ensures Elements(Keys(fields)) == KeySet(fields)
  {
    forall k
      ensures k in Elements(Keys(fields)) <==> k in KeySet(fields)
    {
      if k in KeySet(fields) {
        var i :| 0 <= i < |fields| && fields[i].key == k;
        assert Keys(fields)[i] == k;
      }
    }
  }

  /** `canonicalJson`. */
  function Canon(v: Json): Text
    requires Valid(v)
    decreases v, 1, 0
  {
    match v
    case Null => [0x6E, 0x75, 0x6C, 0x6C]
    case Bool(b) => if b then [0x74, 0x72, 0x75, 0x65] else [0x66, 0x61, 0x6C, 0x73, 0x65]
    case Number(t) => t
    case NegativeZero => ZERO
    case Infinite(_) => [0x6E, 0x75, 0x6C, 0x6C]
    case String(s) => Quote(s)
    case Array(items) => [OPEN_ARRAY] + Items(v, 0) + [CLOSE_ARRAY]
    case Object(fields) => [OPEN_OBJECT] + Members(v, SortedKeysOf(v)) + [CLOSE_OBJECT]
  }

  /** The items from index `i` on, joined by commas. */
  function Items(v: Json, i: nat): Text
    requires Valid(v) && v.Array? && i <= |v.items|
    decreases v, 0, |v.items| - i
  {
    if i == |v.items| then []
    else Canon(v.items[i]) + if i + 1 == |v.items| then [] else [COMMA] + Items(v, i + 1)
  }

  /** The members of the given keys, joined by commas. */
  function Members(v: Json, keys: seq<Text>): Text
    requires Valid(v) && v.Object? && forall k :: k in keys ==> HasKey(v, k)
    decreases v, 0, |keys|
  {
    if keys == [] then []
    else
      Quote(keys[0]) + [COLON] + Canon(Get(v, keys[0]))
      + if |keys| == 1 then [] else [COMMA] + Members(v, keys[1..])
  }

  // ------------------------------------------ the canonical text is JSON, as RFC 8259 defines it

  function Ascii(s: string): Text
    requires forall i :: 0 <= i < |s| ==> s[i] as int < 128
  {
    seq(|s|, i requires 0 <= i < |s| => s[i] as int)
  }

  function Joined(parts: seq<Text>): Text {
    if parts == [] then []
    else if |parts| == 1 then parts[0]
    else parts[0] + Ascii(",") + Joined(parts[1..])
  }

  /** A quotation mark, and what reads as the string up to the next one. */
  predicate StringText(t: Text, s: Text) {
    t != [] && [t[0]] == Ascii("\"") && ReadString(t[1..]) == Some((s, []))
  }

  /** All fields, each once, in the order of their keys. */
  ghost predicate InKeyOrder(fields: seq<Field>, order: seq<nat>) {
    && |order| == |fields| && (forall i :: 0 <= i < |order| ==> order[i] < |fields|)
    && forall i, j :: 0 <= i < j < |order| ==> Lexicographic(fields[order[i]].key, fields[order[j]].key)
  }

  /** The text is one of the value without white space, with its members in the order of their keys; an
      infinity, for which there is none, counts as null. */
  ghost predicate JsonText(t: Text, v: Json)
    decreases v
  {
    match v
    case Null => t == Ascii("null")
    case Infinite(_) => t == Ascii("null")
    case Bool(b) => t == Ascii(if b then "true" else "false")
    case Number(n) => t == n
    case NegativeZero => t == Ascii("0")
    case String(s) => StringText(t, s)
    case Array(items) =>
      exists parts: seq<Text> | |parts| == |items| ::
        && (forall i :: 0 <= i < |items| ==> JsonText(parts[i], items[i]))
        && t == Ascii("[") + Joined(parts) + Ascii("]")
    case Object(fields) =>
      exists order: seq<nat>, parts: seq<Text> | InKeyOrder(fields, order) && |parts| == |order| ::
        && (forall i :: 0 <= i < |order| ==> MemberText(parts[i], fields[order[i]]))
        && t == Ascii("{") + Joined(parts) + Ascii("}")
  }

  ghost predicate MemberText(t: Text, f: Field)
    decreases f
  {
    exists k: Text, x: Text :: StringText(k, f.key) && JsonText(x, f.value) && t == k + Ascii(":") + x
  }

  lemma LiteralTexts()
    ensures Ascii("null") == [0x6E, 0x75, 0x6C, 0x6C] && Ascii("true") == [0x74, 0x72, 0x75, 0x65]
    ensures Ascii("false") == [0x66, 0x61, 0x6C, 0x73, 0x65] && Ascii("0") == ZERO
    ensures Ascii("[") == [OPEN_ARRAY] && Ascii("]") == [CLOSE_ARRAY] && Ascii(",") == [COMMA]
    ensures Ascii("{") == [OPEN_OBJECT] && Ascii("}") == [CLOSE_OBJECT] && Ascii(":") == [COLON]
    ensures Ascii("\"") == [QUOTE]
  {
  }

  lemma QuoteIsText(s: Text)
    ensures StringText(Quote(s), s)
  {
    LiteralTexts();
    ReadsEscaped(s, []);
    assert Quote(s)[1..] == Escape(s) + [QUOTE] + [];
  }

  lemma {:induction false} ItemsAreJoined(v: Json, parts: seq<Text>, i: nat)
    requires Valid(v) && v.Array? && |parts| == |v.items| && i <= |parts|
    requires forall k :: 0 <= k < |parts| ==> parts[k] == Canon(v.items[k])
    ensures Items(v, i) == Joined(parts[i..])
    decreases |parts| - i
  {
    hide Canon, Valid;
    LiteralTexts();
    if i < |parts| {
      ItemsAreJoined(v, parts, i + 1);
      assert parts[i..][1..] == parts[i + 1..];
    }
  }

  function MemberOf(v: Json, key: Text): Text
    requires Valid(v) && HasKey(v, key)
  {
    PropertyIsValid(v, key);
    Quote(key) + [COLON] + Canon(Get(v, key))
  }

  lemma {:induction false} MembersAreJoined(v: Json, keys: seq<Text>, parts: seq<Text>)
    requires Valid(v) && v.Object? && |parts| == |keys| && forall k :: k in keys ==> HasKey(v, k)
    requires forall i :: 0 <= i < |keys| ==> parts[i] == MemberOf(v, keys[i])
    ensures Members(v, keys) == Joined(parts)
    decreases |keys|
  {
    hide Canon, Valid, Quote, Get, HasKey;
    LiteralTexts();
    if keys != [] {
      MembersAreJoined(v, keys[1..], parts[1..]);
    }
  }

  lemma {:induction false} InsertLength(k: Text, ks: seq<Text>)
    ensures |Insert(k, ks)| == |ks| + 1
  {
    if ks != [] { InsertLength(k, ks[1..]); }
  }

  lemma {:induction false} SortedLength(ks: seq<Text>)
    ensures |SortKeys(ks)| == |ks|
  {
    if ks != [] {
      SortedLength(ks[1..]);
      InsertLength(ks[0], SortKeys(ks[1..]));
    }
  }

  lemma MemberIsText(v: Json, key: Text, i: nat)
    requires Valid(v) && v.Object? && i < |v.fields| && v.fields[i].key == key
    requires HasKey(v, key) && i == IndexOfKey(v.fields, key)
    requires JsonText(Canon(Get(v, key)), Get(v, key))
    ensures MemberText(MemberOf(v, key), v.fields[i])
  {
    hide Canon, StringText, JsonText;
    LiteralTexts();
    QuoteIsText(key);
    assert MemberOf(v, key) == Quote(key) + Ascii(":") + Canon(Get(v, key));
  }

  /** Every canonical text is a JSON text of its value. */
  lemma {:induction false} CanonIsJson(v: Json)
    requires Valid(v)
    ensures JsonText(Canon(v), v)
    decreases v
  {
    LiteralTexts();
    match v
    case String(s) => QuoteIsText(s);
    case Array(items) =>
      var parts := seq(|items|, i requires 0 <= i < |items| => Canon(items[i]));
      forall i | 0 <= i < |items|
        ensures JsonText(parts[i], items[i])
      {
        CanonIsJson(items[i]);
      }
      ItemsAreJoined(v, parts, 0);
      assert parts[0..] == parts;
    case Object(fields) =>
      ObjectIsJson(v);
    case _ =>
  }

  function PlaceOf(v: Json, key: Text): (i: nat)
    requires HasKey(v, key)
    ensures i < |v.fields| && v.fields[i].key == key && i == IndexOfKey(v.fields, key)
  {
    IndexOfKey(v.fields, key)
  }

  lemma {:induction false} ObjectIsJson(v: Json)
    requires Valid(v) && v.Object?
    ensures JsonText(Canon(v), v)
    decreases v, 0
  {
    hide Valid, Canon, HasKey, Get, JsonText, MemberText, SortKeys, Increasing, IndexOfKey;
    var keys := SortedKeysOf(v);
    assert forall i :: 0 <= i < |keys| ==> keys[i] in keys;
    var parts := seq(|keys|, i requires 0 <= i < |keys| => MemberOf(v, keys[i]));
    var order := seq(|keys|, i requires 0 <= i < |keys| => PlaceOf(v, keys[i]));
    forall i | 0 <= i < |order|
      ensures MemberText(parts[i], v.fields[order[i]])
    {
      PropertyIsValid(v, keys[i]);
      CanonIsJson(Get(v, keys[i]));
      MemberIsText(v, keys[i], order[i]);
    }
    ObjectText(v, keys, order, parts);
  }

  lemma ObjectText(v: Json, keys: seq<Text>, order: seq<nat>, parts: seq<Text>)
    requires Valid(v) && v.Object? && keys == SortedKeysOf(v) && |order| == |keys| && |parts| == |keys|
    requires forall i :: 0 <= i < |order| ==> order[i] < |v.fields| && v.fields[order[i]].key == keys[i]
    requires forall i :: 0 <= i < |order| ==> MemberText(parts[i], v.fields[order[i]])
    requires forall i :: 0 <= i < |keys| ==> HasKey(v, keys[i]) && parts[i] == MemberOf(v, keys[i])
    ensures JsonText(Canon(v), v)
  {
    hide Valid, MemberText, HasKey, Get;
    SortedLength(Keys(v.fields));
    LiteralTexts();
    MembersAreJoined(v, keys, parts);
    forall i, j | 0 <= i < j < |order|
      ensures Lexicographic(v.fields[order[i]].key, v.fields[order[j]].key)
    {
      LessIsLexicographic(keys[i], keys[j]);
    }
    assert InKeyOrder(v.fields, order);
  }

  // ---------------------------------------------------------- equal values, equal texts

  lemma GetIs(v: Json, i: nat)
    requires Valid(v) && v.Object? && i < |v.fields|
    ensures HasKey(v, v.fields[i].key) && Get(v, v.fields[i].key) == v.fields[i].value
  {
  }

  lemma SameKeysSameOrder(a: Json, b: Json)
    requires Valid(a) && Valid(b) && a.Object? && b.Object? && KeySet(a.fields) == KeySet(b.fields)
    ensures SortedKeysOf(a) == SortedKeysOf(b)
  {
    IncreasingIsUnique(SortedKeysOf(a), SortedKeysOf(b));
  }

  lemma EquivalentProperty(a: Json, b: Json, key: Text)
    requires Valid(a) && Valid(b) && a.Object? && Equivalent(a, b) && HasKey(a, key)
    ensures HasKey(b, key) && Equivalent(Get(a, key), Get(b, key))
  {
    hide Valid;
    var i := IndexOfKey(a.fields, key);
    assert HasMatch(a.fields[i], b.fields);
    var j :| 0 <= j < |b.fields| && a.fields[i].key == b.fields[j].key
        && Equivalent(a.fields[i].value, b.fields[j].value);
    GetIs(b, j);
  }

  lemma {:induction false} EquivalentSameText(a: Json, b: Json)
    requires Valid(a) && Valid(b) && Equivalent(a, b)
    ensures Canon(a) == Canon(b)
    decreases a, 1, 0
  {
    if a.Array? {
      EquivalentItems(a, b, 0);
    } else if a.Object? {
      SameKeysSameOrder(a, b);
      EquivalentMembers(a, b, SortedKeysOf(a));
    }
  }

  lemma {:induction false} EquivalentItems(a: Json, b: Json, i: nat)
    requires Valid(a) && Valid(b) && a.Array? && Equivalent(a, b) && i <= |a.items|
    ensures Items(a, i) == Items(b, i)
    decreases a, 0, |a.items| - i
  {
    if i < |a.items| {
      EquivalentSameText(a.items[i], b.items[i]);
      EquivalentItems(a, b, i + 1);
    }
  }

  lemma {:induction false} EquivalentMembers(a: Json, b: Json, keys: seq<Text>)
    requires Valid(a) && Valid(b) && a.Object? && b.Object? && Equivalent(a, b)
    requires forall k :: k in keys ==> HasKey(a, k) && HasKey(b, k)
    ensures Members(a, keys) == Members(b, keys)
    decreases a, 0, |keys|
  {
    if keys != [] {
      EquivalentProperty(a, b, keys[0]);
      EquivalentSameText(Get(a, keys[0]), Get(b, keys[0]));
      EquivalentMembers(a, b, keys[1..]);
    }
  }

  // ---------------------------------------------------------- equal texts, equal values

  /** What may follow a value inside a canonical text. */
  predicate Delimited(t: Text) {
    t == [] || t[0] in {COMMA, CLOSE_ARRAY, CLOSE_OBJECT}
  }

  predicate InNumber(u: Unit) { Digit(u) || u in {MINUS, PLUS, POINT, 0x65, 0x45} }

  lemma BodyUnits(body: Text, i: nat, j: nat)
    requires i <= j <= |body| && IsInt(body[..i]) && IsFrac(body[i..j]) && IsExp(body[j..])
    ensures |body| > 0 && Digit(body[0])
    ensures forall k :: 0 <= k < |body| ==> InNumber(body[k])
  {
    assert body[..i][0] == body[0];
    forall k | 0 <= k < |body|
      ensures InNumber(body[k])
    {
      if k < i {
        assert body[..i][k] == body[k];
      } else if k < j {
        assert body[i..j][k - i] == body[k];
        if k > i { assert body[i..j][1..][k - i - 1] == body[k]; }
      } else {
        assert body[j..][k - j] == body[k];
        if k > j { assert body[j..][1..][k - j - 1] == body[k]; }
        if k > j + 1 { assert body[j..][2..][k - j - 2] == body[k]; }
      }
    }
  }

  lemma NumberUnits(t: Text)
    requires IsNumber(t)
    ensures t != [] && (Digit(t[0]) || t[0] == MINUS)
    ensures forall i :: 0 <= i < |t| ==> InNumber(t[i])
  {
    hide IsInt, IsFrac, IsExp;
    var body := if t != [] && t[0] == MINUS then t[1..] else t;
    var i: nat, j: nat :| i <= j <= |body| && IsInt(body[..i]) && IsFrac(body[i..j]) && IsExp(body[j..]);
    BodyUnits(body, i, j);
    forall k | 0 <= k < |t|
      ensures InNumber(t[k])
    {
      if t[0] == MINUS && k > 0 { assert t[k] == body[k - 1]; }
    }
  }

  /** A number ends where the first unit outside its alphabet stands. */
  lemma NumberEnds(t: Text, x: Text)
    requires IsNumber(t) && Delimited(x)
    ensures forall k :: 0 <= k < |t| ==> InNumber((t + x)[k])
    ensures |t + x| > |t| ==> !InNumber((t + x)[|t|])
  {
    NumberUnits(t);
    assert x != [] ==> (t + x)[|t|] == x[0];
  }

  lemma NumbersApart(t: Text, t': Text, x: Text, y: Text)
    requires IsNumber(t) && IsNumber(t') && Delimited(x) && Delimited(y) && t + x == t' + y
    ensures t == t' && x == y
  {
    hide IsNumber, InNumber, Delimited;
    NumberEnds(t, x);
    NumberEnds(t', y);
    assert |t| == |t'|;
    assert t == (t + x)[..|t|] && x == (t + x)[|t|..];
    assert t' == (t' + y)[..|t'|] && y == (t' + y)[|t'|..];
  }

  lemma ZeroIsNumber()
    ensures IsNumber(ZERO)
  {
    assert IsInt(ZERO[..1]) && IsFrac(ZERO[1..1]) && IsExp(ZERO[1..]);
  }

  lemma NumeralsApart(a: Json, b: Json, x: Text, y: Text)
    requires Valid(a) && Valid(b) && (a.Number? || a.NegativeZero?) && (b.Number? || b.NegativeZero?)
    requires Delimited(x) && Delimited(y) && Canon(a) + x == Canon(b) + y
    ensures Leaf(a) == Leaf(b) && x == y
  {
    hide IsNumber;
    ZeroIsNumber();
    NumbersApart(Canon(a), Canon(b), x, y);
  }

  /** The first unit of a value's text. */
  function Lead(v: Json): Unit
    requires Valid(v)
    ensures Lead(v) !in {COMMA, CLOSE_ARRAY, CLOSE_OBJECT}
    ensures v.Number? || v.NegativeZero? <==> Digit(Lead(v)) || Lead(v) == MINUS
  {
    match v
    case Null => 0x6E
    case Bool(b) => if b then 0x74 else 0x66
    case Number(t) => NumberUnits(t); t[0]
    case NegativeZero => 0x30
    case Infinite(_) => 0x6E
    case String(_) => QUOTE
    case Array(_) => OPEN_ARRAY
    case Object(_) => OPEN_OBJECT
  }

  lemma StartsWithLead(v: Json, rest: Text)
    requires Valid(v)
    ensures Canon(v) != [] && (Canon(v) + rest)[0] == Lead(v)
  {
    if v.Number? { NumberUnits(v.text); }
    if v.String? { assert Quote(v.s)[0] == QUOTE; }
    assert |Canon(v)| > 0 && Canon(v)[0] == Lead(v);
  }

  /** A value can be read off the front of a text in one way. */
  lemma {:induction false} ValuesApart(a: Json, b: Json, x: Text, y: Text)
    requires Valid(a) && Valid(b) && Delimited(x) && Delimited(y)
    requires Canon(a) + x == Canon(b) + y
    ensures Equivalent(a, b) && x == y
    decreases a, 1, 0
  {
    hide Quote;
    StartsWithLead(a, x);
    StartsWithLead(b, y);
    match a
    case Null => assert x == (Canon(a) + x)[4..] && y == (Canon(b) + y)[4..];
    case Infinite(_) => assert x == (Canon(a) + x)[4..] && y == (Canon(b) + y)[4..];
    case Bool(_) =>
      var n := |Canon(a)|;
      assert x == (Canon(a) + x)[n..] && y == (Canon(b) + y)[n..];
    case Number(_) => NumeralsApart(a, b, x, y);
    case NegativeZero => NumeralsApart(a, b, x, y);
    case String(s) => QuotesApart(s, b.s, x, y);
    case Array(_) =>
      InsideBrackets(OPEN_ARRAY, Items(a, 0), Items(b, 0), CLOSE_ARRAY, x, y);
      ItemsApart(a, b, 0, x, y);
    case Object(_) =>
      var ks, ls := SortedKeysOf(a), SortedKeysOf(b);
      InsideBrackets(OPEN_OBJECT, Members(a, ks), Members(b, ls), CLOSE_OBJECT, x, y);
      MembersApart(a, ks, b, ls, x, y);
      assert KeySet(a.fields) == KeySet(b.fields);
      forall k | HasKey(a, k) && HasKey(b, k)
        ensures Equivalent(Get(a, k), Get(b, k))
      {
        assert k in KeySet(a.fields) && k in Elements(ks);
      }
      SamePropertiesEquivalent(a, b);
  }

  lemma InsideBrackets(open: Unit, body: Text, body': Text, close: Unit, x: Text, y: Text)
    requires [open] + body + [close] + x == [open] + body' + [close] + y
    ensures body + [close] + x == body' + [close] + y
  {
    var t, u := body + [close] + x, body' + [close] + y;
    assert [open] + body + [close] + x == [open] + t && [open] + body' + [close] + y == [open] + u;
    assert ([open] + t)[1..] == t && ([open] + u)[1..] == u;
  }

  lemma CounterpartOf(a: Json, b: Json, i: nat) returns (j: nat)
    requires Valid(a) && Valid(b) && a.Object? && b.Object? && KeySet(a.fields) == KeySet(b.fields)
    requires i < |a.fields|
    ensures j < |b.fields| && a.fields[i].key == b.fields[j].key
    ensures var key := a.fields[i].key;
      && HasKey(a, key) && Get(a, key) == a.fields[i].value
      && HasKey(b, key) && Get(b, key) == b.fields[j].value
  {
    hide Valid, Get;
    GetIs(a, i);
    assert a.fields[i].key in KeySet(b.fields);
    j :| 0 <= j < |b.fields| && b.fields[j].key == a.fields[i].key;
    GetIs(b, j);
  }

  lemma SamePropertiesEquivalent(a: Json, b: Json)
    requires Valid(a) && Valid(b) && a.Object? && b.Object? && KeySet(a.fields) == KeySet(b.fields)
    requires forall k :: HasKey(a, k) && HasKey(b, k) ==> Equivalent(Get(a, k), Get(b, k))
    ensures Equivalent(a, b)
  {
    hide Valid, Get, KeySet, HasKey;
    forall i | 0 <= i < |a.fields|
      ensures HasMatch(a.fields[i], b.fields)
    {
      var j := CounterpartOf(a, b, i);
      assert Equivalent(a.fields[i].value, b.fields[j].value);
    }
  }

  /** What follows an item or a member, up to and including the closing bracket. */
  function Tail(more: Text, close: Unit, rest: Text): Text {
    (if more == [] then [] else [COMMA] + more) + [close] + rest
  }

  lemma TailsApart(more: Text, more': Text, close: Unit, x: Text, y: Text)
    requires close != COMMA && Tail(more, close, x) == Tail(more', close, y)
    ensures (more == []) == (more' == []) && more + [close] + x == more' + [close] + y
  {
    var t, u := Tail(more, close, x), Tail(more', close, y);
    assert more == [] ==> t[0] == close && t == more + [close] + x;
    assert more != [] ==> t[0] == COMMA && t[1..] == more + [close] + x;
    assert more' == [] ==> u[0] == close && u == more' + [close] + y;
    assert more' != [] ==> u[0] == COMMA && u[1..] == more' + [close] + y;
  }

  lemma ItemsSplit(v: Json, i: nat, x: Text)
    requires Valid(v) && v.Array? && i < |v.items|
    ensures Items(v, i) + [CLOSE_ARRAY] + x == Canon(v.items[i]) + Tail(Items(v, i + 1), CLOSE_ARRAY, x)
    ensures (Items(v, i + 1) == []) == (i + 1 == |v.items|)
    ensures (Items(v, i) + [CLOSE_ARRAY] + x)[0] != CLOSE_ARRAY
  {
    if i + 1 < |v.items| { StartsWithLead(v.items[i + 1], []); }
    StartsWithLead(v.items[i], Tail(Items(v, i + 1), CLOSE_ARRAY, x));
    assert Items(v, i) + [CLOSE_ARRAY] + x == Canon(v.items[i]) + Tail(Items(v, i + 1), CLOSE_ARRAY, x);
  }

  lemma {:induction false} ItemsApart(a: Json, b: Json, i: nat, x: Text, y: Text)
    requires Valid(a) && Valid(b) && a.Array? && b.Array? && i <= |a.items| && i <= |b.items|
    requires Items(a, i) + [CLOSE_ARRAY] + x == Items(b, i) + [CLOSE_ARRAY] + y
    ensures |a.items| == |b.items| && x == y
    ensures forall k :: i <= k < |a.items| ==> Equivalent(a.items[k], b.items[k])
    decreases a, 0, |a.items| - i
  {
    hide Canon, Equivalent, Items, Tail;
    if i < |a.items| { ItemsSplit(a, i, x); } else { NoItems(a, x); }
    if i < |b.items| { ItemsSplit(b, i, y); } else { NoItems(b, y); }
    if i < |a.items| && i < |b.items| {
      var t, u := Tail(Items(a, i + 1), CLOSE_ARRAY, x), Tail(Items(b, i + 1), CLOSE_ARRAY, y);
      TailIsDelimited(Items(a, i + 1), CLOSE_ARRAY, x);
      TailIsDelimited(Items(b, i + 1), CLOSE_ARRAY, y);
      ValuesApart(a.items[i], b.items[i], t, u);
      TailsApart(Items(a, i + 1), Items(b, i + 1), CLOSE_ARRAY, x, y);
      ItemsApart(a, b, i + 1, x, y);
    }
  }

  lemma NoItems(v: Json, x: Text)
    requires Valid(v) && v.Array?
    ensures (Items(v, |v.items|) + [CLOSE_ARRAY] + x)[0] == CLOSE_ARRAY
    ensures (Items(v, |v.items|) + [CLOSE_ARRAY] + x)[1..] == x
  {
  }

  lemma TailIsDelimited(more: Text, close: Unit, rest: Text)
    requires close in {CLOSE_ARRAY, CLOSE_OBJECT}
    ensures Delimited(Tail(more, close, rest))
  {
  }

  lemma MembersUnfold(v: Json, keys: seq<Text>)
    requires Valid(v) && v.Object? && keys != [] && forall k :: k in keys ==> HasKey(v, k)
    ensures Members(v, keys) == Quote(keys[0]) + [COLON] + Canon(Get(v, keys[0]))
                                + if |keys| == 1 then [] else [COMMA] + Members(v, keys[1..])
    ensures Members(v, keys) != [] && Members(v, keys)[0] == QUOTE
  {
    hide Canon, Get;
    assert Quote(keys[0])[0] == QUOTE;
  }

  lemma MembersSplit(v: Json, keys: seq<Text>, x: Text)
    requires Valid(v) && v.Object? && keys != [] && forall k :: k in keys ==> HasKey(v, k)
    ensures Members(v, keys) + [CLOSE_OBJECT] + x
         == Quote(keys[0]) + ([COLON] + (Canon(Get(v, keys[0])) + Tail(Members(v, keys[1..]), CLOSE_OBJECT, x)))
    ensures (Members(v, keys[1..]) == []) == (|keys| == 1)
    ensures (Members(v, keys) + [CLOSE_OBJECT] + x)[0] == QUOTE
  {
    hide Canon, Quote, Get, Tail, Members;
    MembersUnfold(v, keys);
    if |keys| == 1 {
      NoMembers(v, []);
      assert keys[1..] == [];
    } else {
      MembersUnfold(v, keys[1..]);
    }
    Regroup(Members(v, keys), Quote(keys[0]), Canon(Get(v, keys[0])), Members(v, keys[1..]), x);
  }

  lemma Regroup(all: Text, key: Text, value: Text, more: Text, x: Text)
    requires all != [] && all == key + [COLON] + value + if more == [] then [] else [COMMA] + more
    ensures all + [CLOSE_OBJECT] + x == key + ([COLON] + (value + Tail(more, CLOSE_OBJECT, x)))
    ensures (all + [CLOSE_OBJECT] + x)[0] == all[0]
  {
    var mid := if more == [] then [] else [COMMA] + more;
    assert all + [CLOSE_OBJECT] + x == key + [COLON] + value + (mid + [CLOSE_OBJECT] + x);
  }

  lemma {:induction false} MembersApart(a: Json, ks: seq<Text>, b: Json, ls: seq<Text>, x: Text, y: Text)
    requires Valid(a) && Valid(b) && a.Object? && b.Object?
    requires forall k :: k in ks ==> HasKey(a, k)
    requires forall k :: k in ls ==> HasKey(b, k)
    requires Members(a, ks) + [CLOSE_OBJECT] + x == Members(b, ls) + [CLOSE_OBJECT] + y
    ensures ks == ls && x == y
    ensures forall k :: k in ks ==> Equivalent(Get(a, k), Get(b, k))
    decreases a, 0, |ks|
  {
    hide Canon, Equivalent, Members, Tail, Quote, Get;
    if ks != [] { MembersSplit(a, ks, x); } else { NoMembers(a, x); }
    if ls != [] { MembersSplit(b, ls, y); } else { NoMembers(b, y); }
    if ks != [] && ls != [] {
      var t, u := Tail(Members(a, ks[1..]), CLOSE_OBJECT, x), Tail(Members(b, ls[1..]), CLOSE_OBJECT, y);
      var p, q := Canon(Get(a, ks[0])) + t, Canon(Get(b, ls[0])) + u;
      QuotesApart(ks[0], ls[0], [COLON] + p, [COLON] + q);
      assert ([COLON] + p)[1..] == p && ([COLON] + q)[1..] == q;
      TailIsDelimited(Members(a, ks[1..]), CLOSE_OBJECT, x);
      TailIsDelimited(Members(b, ls[1..]), CLOSE_OBJECT, y);
      PropertyIsValid(a, ks[0]);
      PropertyIsValid(b, ls[0]);
      ValuesApart(Get(a, ks[0]), Get(b, ls[0]), t, u);
      TailsApart(Members(a, ks[1..]), Members(b, ls[1..]), CLOSE_OBJECT, x, y);
      MembersApart(a, ks[1..], b, ls[1..], x, y);
      assert ks == [ks[0]] + ks[1..] && ls == [ls[0]] + ls[1..];
    }
  }

  lemma PropertyIsValid(v: Json, key: Text)
    requires Valid(v) && HasKey(v, key)
    ensures Valid(Get(v, key)) && Get(v, key) < v
  {
  }

  lemma NoMembers(v: Json, x: Text)
    requires Valid(v) && v.Object?
    ensures Members(v, []) == []
    ensures (Members(v, []) + [CLOSE_OBJECT] + x)[0] == CLOSE_OBJECT
    ensures (Members(v, []) + [CLOSE_OBJECT] + x)[1..] == x
  {
  }

  /** Two JSON values have the same canonical text exactly when they are equal up to the order of
      their keys. */
  lemma SameTextExactlyWhenEquivalent(a: Json, b: Json)
    requires Valid(a) && Valid(b)
    ensures Canon(a) == Canon(b) <==> Equivalent(a, b)
  {
    if Canon(a) == Canon(b) {
      ValuesApart(a, b, [], []);
    }
    if Equivalent(a, b) {
      EquivalentSameText(a, b);
    }
  }

  // ------------------------------------------------------------- what printing loses

  /** Equal up to the order of object keys and the sign of zero, which JavaScript's equality does not
      see either. */
  ghost predicate Same(a: Json, b: Json) {
    match a
    case Array(items) =>
      b.Array? && |items| == |b.items| && forall i :: 0 <= i < |items| ==> Same(items[i], b.items[i])
    case Object(fields) =>
      b.Object? && KeySet(fields) == KeySet(b.fields) && forall i :: 0 <= i < |fields| ==> HasSame(fields[i], b.fields)
    case Infinite(_) => a == b
    case _ => !b.Infinite? && Leaf(a) == Leaf(b)
  }

  ghost predicate HasSame(f: Field, fields: seq<Field>) {
    exists j :: 0 <= j < |fields| && f.key == fields[j].key && Same(f.value, fields[j].value)
  }

  /** No infinity anywhere inside. */
  predicate Finite(v: Json) {
    match v
    case Infinite(_) => false
    case Array(items) => forall i :: 0 <= i < |items| ==> Finite(items[i])
    case Object(fields) => forall i :: 0 <= i < |fields| ==> Finite(fields[i].value)
    case _ => true
  }

  lemma {:induction false} SameIsEquivalent(a: Json, b: Json)
    requires Same(a, b)
    ensures Equivalent(a, b)
  {
    match a
    case Array(items) =>
      forall i | 0 <= i < |items|
        ensures Equivalent(items[i], b.items[i])
      {
        SameIsEquivalent(items[i], b.items[i]);
      }
    case Object(fields) =>
      forall i | 0 <= i < |fields|
        ensures HasMatch(fields[i], b.fields)
      {
        assert HasSame(fields[i], b.fields);
        var j :| 0 <= j < |b.fields| && fields[i].key == b.fields[j].key && Same(fields[i].value, b.fields[j].value);
        SameIsEquivalent(fields[i].value, b.fields[j].value);
      }
    case _ =>
  }

  lemma {:induction false} FiniteEquivalentIsSame(a: Json, b: Json)
    requires Finite(a) && Finite(b) && Equivalent(a, b)
    ensures Same(a, b)
  {
    match a
    case Array(items) =>
      forall i | 0 <= i < |items|
        ensures Same(items[i], b.items[i])
      {
        FiniteEquivalentIsSame(items[i], b.items[i]);
      }
    case Object(fields) =>
      forall i | 0 <= i < |fields|
        ensures HasSame(fields[i], b.fields)
      {
        assert HasMatch(fields[i], b.fields);
        var j :| 0 <= j < |b.fields| && fields[i].key == b.fields[j].key
            && Equivalent(fields[i].value, b.fields[j].value);
        FiniteEquivalentIsSame(fields[i].value, b.fields[j].value);
      }
    case _ =>
  }

  /** Among finite values the canonical text tells exactly the values apart. */
  lemma FiniteSameTextExactlyWhenSame(a: Json, b: Json)
    requires Valid(a) && Valid(b) && Finite(a) && Finite(b)
    ensures Canon(a) == Canon(b) <==> Same(a, b)
  {
    SameTextExactlyWhenEquivalent(a, b);
    if Equivalent(a, b) { FiniteEquivalentIsSame(a, b); }
    if Same(a, b) { SameIsEquivalent(a, b); }
  }

  /** An infinity is not told from null, nor from the other infinity. */
  lemma InfinityReadsAsNull(negative: bool)
    ensures Canon(Infinite(negative)) == Canon(Null) && !Same(Infinite(negative), Null)
    ensures Canon(Infinite(negative)) == Canon(Infinite(!negative)) && !Same(Infinite(negative), Infinite(!negative))
  {
  }

  // ------------------------------------------------------------------------- the preimage

  /** Well-formed UTF-16 with no NUL in it. */
  predicate Clean(t: Text) {
    t == []
    || (t[0] != NUL
        && if High(t[0]) then |t| >= 2 && Low(t[1]) && Clean(t[2..]) else !Low(t[0]) && Clean(t[1..]))
  }

  lemma {:induction false} CleanConcat(a: Text, b: Text)
    requires Clean(a) && Clean(b)
    ensures Clean(a + b)
    decreases |a|
  {
    if a == [] {
      assert a + b == b;
    } else if High(a[0]) {
      CleanConcat(a[2..], b);
      assert (a + b)[2..] == a[2..] + b;
    } else {
      CleanConcat(a[1..], b);
      assert (a + b)[1..] == a[1..] + b;
    }
  }

  lemma {:induction false} PlainIsClean(t: Text)
    requires forall i :: 0 <= i < |t| ==> 0 < t[i] < 0xD800
    ensures Clean(t)
  {
    if t != [] { PlainIsClean(t[1..]); }
  }

  lemma {:induction false} EscapeIsClean(s: Text)
    ensures Clean(Escape(s))
  {
    if s == [] {
    } else if |s| >= 2 && High(s[0]) && Low(s[1]) {
      EscapeIsClean(s[2..]);
      assert Escape(s)[2..] == Escape(s[2..]);
    } else {
      EscapeIsClean(s[1..]);
      EscapeUnitIsClean(s[0]);
      CleanConcat(EscapeUnit(s[0]), Escape(s[1..]));
    }
  }

  lemma EscapeUnitIsClean(u: Unit)
    ensures Clean(EscapeUnit(u))
  {
    if Letter(u).Some? || u < 0x20 || High(u) || Low(u) {
      PlainIsClean(EscapeUnit(u));
    } else {
      assert [u][1..] == [];
    }
  }

  lemma QuoteIsClean(s: Text)
    ensures Clean(Quote(s))
  {
    EscapeIsClean(s);
    PlainIsClean([QUOTE]);
    CleanConcat([QUOTE], Escape(s));
    CleanConcat([QUOTE] + Escape(s), [QUOTE]);
  }

  lemma {:induction false} CanonIsClean(v: Json)
    requires Valid(v)
    ensures Clean(Canon(v))
    decreases v, 1, 0
  {
    match v
    case Null => PlainIsClean(Canon(v));
    case Bool(_) => PlainIsClean(Canon(v));
    case NegativeZero => PlainIsClean(Canon(v));
    case Infinite(_) => PlainIsClean(Canon(v));
    case Number(t) =>
      NumberUnits(t);
      PlainIsClean(t);
    case String(s) => QuoteIsClean(s);
    case Array(_) =>
      ItemsAreClean(v, 0);
      BracketsAreClean(OPEN_ARRAY, Items(v, 0), CLOSE_ARRAY);
    case Object(_) =>
      MembersAreClean(v, SortedKeysOf(v));
      BracketsAreClean(OPEN_OBJECT, Members(v, SortedKeysOf(v)), CLOSE_OBJECT);
  }

  lemma BracketsAreClean(open: Unit, body: Text, close: Unit)
    requires 0 < open < 0xD800 && 0 < close < 0xD800 && Clean(body)
    ensures Clean([open] + body + [close])
  {
    PlainIsClean([open]);
    PlainIsClean([close]);
    CleanConcat([open], body);
    CleanConcat([open] + body, [close]);
  }

  lemma {:induction false} ItemsAreClean(v: Json, i: nat)
    requires Valid(v) && v.Array? && i <= |v.items|
    ensures Clean(Items(v, i))
    decreases v, 0, |v.items| - i
  {
    if i < |v.items| {
      CanonIsClean(v.items[i]);
      ItemsAreClean(v, i + 1);
      PlainIsClean([COMMA]);
      CleanConcat([COMMA], Items(v, i + 1));
      CleanConcat(Canon(v.items[i]), if i + 1 == |v.items| then [] else [COMMA] + Items(v, i + 1));
    }
  }

  lemma {:induction false} MembersAreClean(v: Json, keys: seq<Text>)
    requires Valid(v) && v.Object? && forall k :: k in keys ==> HasKey(v, k)
    ensures Clean(Members(v, keys))
    decreases v, 0, |keys|
  {
    hide Clean;
    if keys == [] {
      PlainIsClean([]);
    } else {
      QuoteIsClean(keys[0]);
      PropertyIsValid(v, keys[0]);
      CanonIsClean(Get(v, keys[0]));
      MembersAreClean(v, keys[1..]);
      PlainIsClean([COMMA]);
      PlainIsClean([COLON]);
      PlainIsClean([]);
      CleanConcat([COMMA], Members(v, keys[1..]));
      CleanConcat(Quote(keys[0]), [COLON]);
      CleanConcat(Quote(keys[0]) + [COLON], Canon(Get(v, keys[0])));
      CleanConcat(Quote(keys[0]) + [COLON] + Canon(Get(v, keys[0])),
                  if |keys| == 1 then [] else [COMMA] + Members(v, keys[1..]));
    }
  }

  /** Neither null nor an infinity anywhere inside. */
  predicate NullFree(v: Json) {
    match v
    case Null => false
    case Infinite(_) => false
    case Array(items) => forall i :: 0 <= i < |items| ==> NullFree(items[i])
    case Object(fields) => forall i :: 0 <= i < |fields| ==> NullFree(fields[i].value)
    case _ => true
  }

  /** The value with every null and every infinity traded for the other. */
  function Traded(v: Json): Json {
    match v
    case Null => Infinite(false)
    case Infinite(_) => Null
    case Array(items) => Array(seq(|items|, i requires 0 <= i < |items| => Traded(items[i])))
    case Object(fields) =>
      Object(seq(|fields|, i requires 0 <= i < |fields| => Field(fields[i].key, Traded(fields[i].value))))
    case _ => v
  }

  lemma {:induction false} TradedHasSameText(v: Json)
    requires Valid(v)
    ensures Valid(Traded(v)) && Equivalent(v, Traded(v))
  {
    match v
    case Array(items) =>
      forall i | 0 <= i < |items|
        ensures Valid(Traded(items[i])) && Equivalent(items[i], Traded(items[i]))
      {
        TradedHasSameText(items[i]);
      }
    case Object(fields) =>
      forall i | 0 <= i < |fields|
        ensures Valid(Traded(fields[i].value)) && Equivalent(fields[i].value, Traded(fields[i].value))
      {
        TradedHasSameText(fields[i].value);
      }
      TradedKeys(fields, Traded(v).fields);
      TradedFields(fields, Traded(v).fields);
    case _ =>
  }

  lemma TradedKeys(fields: seq<Field>, traded: seq<Field>)
    requires |traded| == |fields| && forall i :: 0 <= i < |fields| ==> traded[i].key == fields[i].key
    ensures KeySet(traded) == KeySet(fields)
    ensures DistinctKeys(fields) ==> DistinctKeys(traded)
  {
    forall k
      ensures k in KeySet(fields) <==> k in KeySet(traded)
    {
      if i :| 0 <= i < |fields| && fields[i].key == k { assert traded[i].key == k; }
      if i :| 0 <= i < |traded| && traded[i].key == k { assert fields[i].key == k; }
    }
  }

  lemma TradedFields(fields: seq<Field>, traded: seq<Field>)
    requires |traded| == |fields| && KeySet(traded) == KeySet(fields)
    requires forall i :: 0 <= i < |fields| ==>
               traded[i].key == fields[i].key && Equivalent(fields[i].value, traded[i].value)
    ensures Equivalent(Object(fields), Object(traded))
  {
    forall i | 0 <= i < |fields|
      ensures HasMatch(fields[i], traded)
    {
      assert Equivalent(fields[i].value, traded[i].value);
    }
  }

  lemma {:induction false} TradedDiffers(v: Json)
    requires Valid(v) && !NullFree(v)
    ensures !Same(v, Traded(v))
  {
    var t := Traded(v);
    match v
    case Array(items) =>
      var i :| 0 <= i < |items| && !NullFree(items[i]);
      TradedDiffers(items[i]);
      assert t.items[i] == Traded(items[i]);
    case Object(fields) =>
      var i :| 0 <= i < |fields| && !NullFree(fields[i].value);
      TradedDiffers(fields[i].value);
      assert !HasSame(fields[i], t.fields);
    case _ =>
  }

  lemma {:induction false} NullFreeEquivalentIsSame(a: Json, b: Json)
    requires NullFree(a) && Equivalent(a, b)
    ensures Same(a, b)
  {
    match a
    case Array(items) =>
      forall i | 0 <= i < |items|
        ensures Same(items[i], b.items[i])
      {
        NullFreeEquivalentIsSame(items[i], b.items[i]);
      }
    case Object(fields) =>
      forall i | 0 <= i < |fields|
        ensures HasSame(fields[i], b.fields)
      {
        assert HasMatch(fields[i], b.fields);
        var j :| 0 <= j < |b.fields| && fields[i].key == b.fields[j].key
            && Equivalent(fields[i].value, b.fields[j].value);
        NullFreeEquivalentIsSame(fields[i].value, b.fields[j].value);
      }
    case _ =>
  }

  /** A value's text stands for no other value if and only if the value contains neither null nor an
      infinity. */
  lemma TextIsUnambiguousExactlyWhen(a: Json)
    requires Valid(a)
    ensures NullFree(a) <==> forall b :: Valid(b) && Canon(a) == Canon(b) ==> Same(a, b)
  {
    hide Canon, Same, NullFree, Equivalent, Valid;
    forall b | NullFree(a) && Valid(b) && Canon(a) == Canon(b)
      ensures Same(a, b)
    {
      SameTextExactlyWhenEquivalent(a, b);
      NullFreeEquivalentIsSame(a, b);
    }
    if !NullFree(a) {
      TradedHasSameText(a);
      SameTextExactlyWhenEquivalent(a, Traded(a));
      TradedDiffers(a);
    }
  }

  // ------------------------------------------------------------------------------- UTF-8

  type Byte = n: nat | n < 256

  function EncodePoint(p: nat): seq<Byte>
    requires p < 0x11_0000
  {
    if p < 0x80 then [p]
    else if p < 0x800 then [0xC0 + p / 64, 0x80 + p % 64]
    else if p < 0x1_0000 then [0xE0 + p / 4096, 0x80 + p / 64 % 64, 0x80 + p % 64]
    else [0xF0 + p / 26_2144, 0x80 + p / 4096 % 64, 0x80 + p / 64 % 64, 0x80 + p % 64]
  }

  function PointOfPair(high: Unit, low: Unit): nat
    requires High(high) && Low(low)
  {
    0x1_0000 + (high - 0xD800) * 0x400 + (low - 0xDC00)
  }

  const REPLACEMENT: Unit := 0xFFFD

  /** The bytes of a string: a lone surrogate becomes the replacement character. */
  function Utf8(t: Text): seq<Byte> {
    if t == [] then []
    else if |t| >= 2 && High(t[0]) && Low(t[1]) then EncodePoint(PointOfPair(t[0], t[1])) + Utf8(t[2..])
    else EncodePoint(if High(t[0]) || Low(t[0]) then REPLACEMENT else t[0]) + Utf8(t[1..])
  }

  /** The text those bytes stand for. */
  function Repaired(t: Text): Text {
    if t == [] then []
    else if |t| >= 2 && High(t[0]) && Low(t[1]) then [t[0], t[1]] + Repaired(t[2..])
    else [if High(t[0]) || Low(t[0]) then REPLACEMENT else t[0]] + Repaired(t[1..])
  }

  predicate Continues(b: Byte) { 0x80 <= b < 0xC0 }

  /** The first code point of a byte sequence and how many bytes it took. */
  function ReadPoint(b: seq<Byte>): (r: Option<(nat, nat)>)
    requires b != []
    ensures r.Some? ==> 1 <= r.value.1 <= |b| && r.value.0 < 0x11_0000
  {
    if b[0] < 0x80 then Some((b[0], 1))
    else if b[0] < 0xC0 then None
    else if b[0] < 0xE0 then
      if |b| < 2 || !Continues(b[1]) then None
      else Some(((b[0] as int - 0xC0) * 64 + (b[1] as int - 0x80), 2))
    else if b[0] < 0xF0 then
      if |b| < 3 || !Continues(b[1]) || !Continues(b[2]) then None
      else Some(((b[0] as int - 0xE0) * 4096 + (b[1] as int - 0x80) * 64 + (b[2] as int - 0x80), 3))
    else if |b| < 4 || !Continues(b[1]) || !Continues(b[2]) || !Continues(b[3]) then None
    else
      var p := (b[0] as int - 0xF0) * 26_2144 + (b[1] as int - 0x80) * 4096
               + (b[2] as int - 0x80) * 64 + (b[3] as int - 0x80);
      if p < 0x11_0000 then Some((p, 4)) else None
  }

  function UnitsOf(p: nat): Text
    requires p < 0x11_0000
  {
    if p < 0x1_0000 then [p] else [0xD800 + (p - 0x1_0000) / 0x400, 0xDC00 + (p - 0x1_0000) % 0x400]
  }

  /** Reads bytes back into text. */
  function Utf16(b: seq<Byte>): Option<Text>
    decreases |b|
  {
    if b == [] then Some([])
    else
      var first := ReadPoint(b);
      if first.None? then None
      else
        var rest := Utf16(b[first.value.1..]);
        if rest.None? then None else Some(UnitsOf(first.value.0) + rest.value)
  }

  lemma SplitPoint(p: nat)
    requires p < 0x11_0000
    ensures p < 0x800 ==> p / 64 < 32 && p / 64 * 64 + p % 64 == p
    ensures p < 0x1_0000 ==> p / 4096 < 16 && p / 4096 * 4096 + p / 64 % 64 * 64 + p % 64 == p
    ensures p / 26_2144 < 5
    ensures p / 26_2144 * 26_2144 + p / 4096 % 64 * 4096 + p / 64 % 64 * 64 + p % 64 == p
  {
    var a, b, c := p / 64, p / 4096, p / 26_2144;
    assert p == a * 64 + p % 64;
    assert b == a / 64 && a == b * 64 + a % 64;
    assert c == b / 64 && b == c * 64 + b % 64;
  }

  lemma ReadsPoint(p: nat, rest: seq<Byte>)
    requires p < 0x11_0000
    ensures EncodePoint(p) != [] && ReadPoint(EncodePoint(p) + rest) == Some((p, |EncodePoint(p)|))
  {
    SplitPoint(p);
    var code := EncodePoint(p);
    assert forall i :: 0 <= i < |code| ==> (code + rest)[i] == code[i];
  }

  lemma PairReadsBack(high: Unit, low: Unit)
    requires High(high) && Low(low)
    ensures PointOfPair(high, low) < 0x11_0000 && UnitsOf(PointOfPair(high, low)) == [high, low]
  {
  }

  lemma ReadsPointOn(p: nat, rest: seq<Byte>, t: Text)
    requires p < 0x11_0000 && Utf16(rest) == Some(t)
    ensures Utf16(EncodePoint(p) + rest) == Some(UnitsOf(p) + t)
  {
    hide EncodePoint, ReadPoint, UnitsOf;
    ReadsPoint(p, rest);
    assert (EncodePoint(p) + rest)[|EncodePoint(p)|..] == rest;
  }

  /** The bytes give back the text, up to the lone surrogates replaced. */
  lemma {:induction false} ReadsUtf8(t: Text)
    ensures Utf16(Utf8(t)) == Some(Repaired(t))
  {
    hide EncodePoint, Utf16, PointOfPair;
    if t == [] {
      ReadsNothing();
    } else if |t| >= 2 && High(t[0]) && Low(t[1]) {
      ReadsUtf8(t[2..]);
      PairReadsBack(t[0], t[1]);
      ReadsPointOn(PointOfPair(t[0], t[1]), Utf8(t[2..]), Repaired(t[2..]));
    } else {
      ReadsUtf8(t[1..]);
      ReadsPointOn(if High(t[0]) || Low(t[0]) then REPLACEMENT else t[0], Utf8(t[1..]), Repaired(t[1..]));
    }
  }

  lemma ReadsNothing()
    ensures Utf16([]) == Some([])
  {
  }

  lemma {:induction false} RepairKeepsBytes(t: Text)
    ensures Utf8(Repaired(t)) == Utf8(t)
  {
    hide EncodePoint, PointOfPair;
    if t == [] {
    } else if |t| >= 2 && High(t[0]) && Low(t[1]) {
      RepairKeepsBytes(t[2..]);
      assert Repaired(t)[2..] == Repaired(t[2..]);
    } else {
      RepairKeepsBytes(t[1..]);
      assert Repaired(t)[1..] == Repaired(t[1..]);
    }
  }

  lemma {:induction false} CleanNeedsNoRepair(t: Text)
    requires Clean(t)
    ensures Repaired(t) == t && 0 !in Utf8(t)
  {
    if t == [] {
    } else if High(t[0]) {
      CleanNeedsNoRepair(t[2..]);
      assert t == [t[0], t[1]] + t[2..];
    } else {
      CleanNeedsNoRepair(t[1..]);
      assert t == [t[0]] + t[1..];
    }
  }

  /** The bytes `fingerprintToolEffect` hashes. */
  function Preimage(toolName: Text, input: Json): seq<Byte>
    requires Valid(input)
  {
    Utf8(toolName) + [0] + Utf8(Canon(input))
  }

  /** The separator is the last zero byte of the preimage. */
  lemma SeparatorIsLastZero(name: Text, input: Json)
    requires Valid(input)
    ensures var p, n := Preimage(name, input), |Utf8(name)|;
      p[n] == 0 && forall k :: n < k < |p| ==> p[k] != 0
  {
    hide Canon, Clean, Utf8;
    CanonIsClean(input);
    CleanNeedsNoRepair(Canon(input));
    var p, n := Preimage(name, input), |Utf8(name)|;
    forall k | n < k < |p|
      ensures p[k] != 0
    {
      assert p[k] == Utf8(Canon(input))[k - n - 1];
    }
  }

  lemma SameBytesSameText(t: Text, t': Text)
    ensures Utf8(t) == Utf8(t') <==> Repaired(t) == Repaired(t')
  {
    ReadsUtf8(t);
    ReadsUtf8(t');
    RepairKeepsBytes(t);
    RepairKeepsBytes(t');
  }

  lemma SameCanonBytes(a: Json, b: Json)
    requires Valid(a) && Valid(b)
    ensures Utf8(Canon(a)) == Utf8(Canon(b)) <==> Equivalent(a, b)
  {
    hide Canon, Clean, Utf8, Equivalent;
    CanonIsClean(a);
    CanonIsClean(b);
    CleanNeedsNoRepair(Canon(a));
    CleanNeedsNoRepair(Canon(b));
    SameBytesSameText(Canon(a), Canon(b));
    SameTextExactlyWhenEquivalent(a, b);
  }

  /** The preimage determines the input up to what its text determines, and the tool name, zero units
      included, up to lone surrogates. */
  lemma PreimageDeterminesBoth(name: Text, input: Json, name': Text, input': Json)
    requires Valid(input) && Valid(input')
    ensures Preimage(name, input) == Preimage(name', input')
            <==> Repaired(name) == Repaired(name') && Equivalent(input, input')
  {
    hide Canon, Equivalent, Utf8, Repaired;
    SameBytesSameText(name, name');
    SameCanonBytes(input, input');
    SeparatorIsLastZero(name, input);
    SeparatorIsLastZero(name', input');
    var p, p' := Preimage(name, input), Preimage(name', input');
    var n, n' := |Utf8(name)|, |Utf8(name')|;
    if p == p' {
      assert n == n';
      assert p[..n] == Utf8(name) && p'[..n'] == Utf8(name');
      assert p[n + 1..] == Utf8(Canon(input)) && p'[n' + 1..] == Utf8(Canon(input'));
    }
  }
  /** Different tool names with one preimage: each is a surrogate alone. */
  lemma LoneSurrogatesShareAPreimage(input: Json)
    requires Valid(input)
    ensures Preimage([0xD800], input) == Preimage([0xDC00], input)
    ensures [0xD800 as Unit] != [0xDC00 as Unit]
  {
    hide Canon;
    var high: Text, low: Text := [0xD800], [0xDC00];
    assert high[1..] == [] && low[1..] == [];
    assert Repaired(high) == [REPLACEMENT] == Repaired(low);
    SameBytesSameText(high, low);
    assert [0xD800 as Unit][0] != [0xDC00 as Unit][0];
  }
}
