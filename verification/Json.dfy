/** JSON text: a bounded parser, and a printer whose output it reads back. */
module Json {
  import opened Bytes
  import opened Ordering

  // ---------------------------------------------------------------- values

  /** A number with a fraction or an exponent is kept as its literal. */
  datatype Value =
    | Null
    | Boolean(flag: bool)
    | Integer(int64: int)
    | Unsigned(uint64: nat)
    | Real(literal: seq<byte>)
    | Text(text: seq<byte>)
    | Array(items: Items)
    | Object(members: Members)

  datatype Items = NoItems | Item(head: Value, tail: Items)

  datatype Members = NoMembers | Member(key: seq<byte>, value: Value, rest: Members)

  datatype ParseLimits = ParseLimits(maxBytes: nat, maxDepth: nat, maxItems: nat, maxStringBytes: nat,
                                     maxArrayItems: nat, maxObjectMembers: nat)

  // ---------------------------------------------------------------- characters

  const QUOTE: byte := 34
  const BACKSLASH: byte := 92
  const COMMA: byte := 44
  const COLON: byte := 58
  const OPEN_BRACE: byte := 123
  const CLOSE_BRACE: byte := 125
  const OPEN_BRACKET: byte := 91
  const CLOSE_BRACKET: byte := 93
  const MINUS: byte := 45
  const ZERO: byte := 48
  const NEWLINE: byte := 10
  const SPACE: byte := 32

  const TRUE_TEXT: seq<byte> := [116, 114, 117, 101]
  const FALSE_TEXT: seq<byte> := [102, 97, 108, 115, 101]
  const NULL_TEXT: seq<byte> := [110, 117, 108, 108]

  predicate IsWhitespace(c: byte) { c == 32 || c == 9 || c == 13 || c == 10 }

  predicate IsDigit(c: byte) { 48 <= c <= 57 }

  function SkipWhitespace(s: seq<byte>): (r: seq<byte>)
    ensures |r| <= |s| && (r != [] ==> !IsWhitespace(r[0]))
  {
    if s != [] && IsWhitespace(s[0]) then SkipWhitespace(s[1..]) else s
  }

  predicate StartsWith(s: seq<byte>, c: byte) { s != [] && s[0] == c }

  // ---------------------------------------------------------------- strings

  datatype Read<T> = Got(value: T, rest: seq<byte>) | Reject {
    predicate IsFailure() { this.Reject? }
    function PropagateFailure<U>(): Read<U> requires IsFailure() { Reject }
    function Extract(): (T, seq<byte>) requires !IsFailure() { (this.value, this.rest) }
  }

  function HexValue(c: byte): (r: Option<nat>)
    ensures r.Some? ==> r.value < 16
  {
    if 48 <= c <= 57 then Some(c - 48)
    else if 97 <= c <= 102 then Some(c - 87)
    else if 65 <= c <= 70 then Some(c - 55)
    else None
  }

  function ParseHex4(s: seq<byte>): (r: Read<nat>)
    ensures r.Got? ==> r.value < 0x1_0000 && |r.rest| == |s| - 4
  {
    if |s| < 4 || HexValue(s[0]).None? || HexValue(s[1]).None? || HexValue(s[2]).None? || HexValue(s[3]).None?
    then Reject
    else Got(((HexValue(s[0]).value * 16 + HexValue(s[1]).value) * 16 + HexValue(s[2]).value) * 16
             + HexValue(s[3]).value, s[4..])
  }

  function CodePointBytes(c: nat): Option<seq<byte>> {
    if c <= 0x7f then Some([c])
    else if c <= 0x7ff then Some([0xc0 + c / 0x40, 0x80 + c % 0x40])
    else if c <= 0xffff then Some([0xe0 + c / 0x1000, 0x80 + c / 0x40 % 0x40, 0x80 + c % 0x40])
    else if c <= 0x10_ffff then Some([0xf0 + c / 0x4_0000, 0x80 + c / 0x1000 % 0x40, 0x80 + c / 0x40 % 0x40,
                                      0x80 + c % 0x40])
    else None
  }

  /** A `\u` escape, surrogate pairs included. */
  function ParseUnicode(s: seq<byte>): (r: Read<seq<byte>>)
    ensures r.Got? ==> |r.rest| < |s|
  {
    var (first, s1) :- ParseHex4(s);
    if 0xd800 <= first <= 0xdbff then
      if |s1| < 2 || s1[0] != BACKSLASH || s1[1] != 117 then Reject
      else
        var (second, s2) :- ParseHex4(s1[2..]);
        if second < 0xdc00 || second > 0xdfff then Reject
        else
          var bytes := CodePointBytes(0x1_0000 + (first - 0xd800) * 0x400 + (second - 0xdc00));
          if bytes.None? then Reject else Got(bytes.value, s2)
    else if 0xdc00 <= first <= 0xdfff then Reject
    else
      var bytes := CodePointBytes(first);
      if bytes.None? then Reject else Got(bytes.value, s1)
  }

  /** What follows a backslash. */
  function ParseEscape(s: seq<byte>): (r: Read<seq<byte>>)
    ensures r.Got? ==> |r.rest| < |s|
  {
    if s == [] then Reject
    else if s[0] == 34 then Got([34], s[1..])
    else if s[0] == 92 then Got([92], s[1..])
    else if s[0] == 47 then Got([47], s[1..])
    else if s[0] == 98 then Got([8], s[1..])
    else if s[0] == 102 then Got([12], s[1..])
    else if s[0] == 110 then Got([10], s[1..])
    else if s[0] == 114 then Got([13], s[1..])
    else if s[0] == 116 then Got([9], s[1..])
    else if s[0] == 117 then ParseUnicode(s[1..])
    else Reject
  }

  /** The rest of a string, after its opening quote. */
  function ParseString(max: nat, s: seq<byte>, sofar: seq<byte>): (r: Read<seq<byte>>)
    ensures r.Got? ==> |r.rest| < |s|
    decreases |s|
  {
    if s == [] || s[0] < 0x20 then Reject
    else if s[0] == QUOTE then Got(sofar, s[1..])
    else if s[0] == BACKSLASH then
      var (bytes, s1) :- ParseEscape(s[1..]);
      if |sofar + bytes| > max then Reject else ParseString(max, s1, sofar + bytes)
    else if |sofar| + 1 > max then Reject
    else ParseString(max, s[1..], sofar + [s[0]])
  }

  // ---------------------------------------------------------------- numbers

  /** The digits at the front. */
  function Digits(s: seq<byte>): (n: nat)
    ensures n <= |s|
  {
    if s == [] || !IsDigit(s[0]) then 0 else 1 + Digits(s[1..])
  }

  function NumberOf(digits: seq<byte>): nat {
    if digits == [] then 0
    else
      var last := digits[|digits| - 1];
      NumberOf(digits[..|digits| - 1]) * 10 + (if IsDigit(last) then last - 48 else 0)
  }

  /** The fraction and exponent at the front: how many bytes, or nothing if malformed. */
  function FractionLength(s: seq<byte>): (r: Option<nat>)
    ensures r.Some? ==> r.value <= |s|
  {
    var point :=
      if StartsWith(s, 46) then (if Digits(s[1..]) == 0 then None else Some(1 + Digits(s[1..]))) else Some(0);
    if point.None? then None
    else
      var t := s[point.value..];
      if t != [] && (t[0] == 101 || t[0] == 69) then
        var sign := if |t| > 1 && (t[1] == 43 || t[1] == 45) then 2 else 1;
        if Digits(t[sign..]) == 0 then None else Some(point.value + sign + Digits(t[sign..]))
      else point
  }

  function ParseNumber(s: seq<byte>): (r: Read<Value>)
    ensures r.Got? ==> |r.rest| < |s|
  {
    var negative := StartsWith(s, MINUS);
    var t := if negative then s[1..] else s;
    var n := Digits(t);
    if n == 0 || (t[0] == ZERO && n > 1) then Reject
    else
      var fraction := FractionLength(t[n..]);
      if fraction.None? then Reject
      else if fraction.value > 0 then
        var length := (if negative then 1 else 0) + n + fraction.value;
        Got(Real(s[..length]), s[length..])
      else
        var v := IntegerOf(negative, NumberOf(t[..n]));
        if v.None? then Reject else Got(v.value, t[n..])
  }

  /** The 64-bit type an integer literal gets, if any holds it. */
  function IntegerOf(negative: bool, magnitude: nat): Option<Value> {
    if negative then (if magnitude > TWO63 then None else Some(Integer(0 - magnitude)))
    else if magnitude < TWO63 then Some(Integer(magnitude))
    else if magnitude < TWO64 then Some(Unsigned(magnitude))
    else None
  }

  // ---------------------------------------------------------------- values

  /** A parsed value, the text after it, and the running count of values. */
  datatype Step<T> = Done(value: T, rest: seq<byte>, count: nat) | Refuse {
    predicate IsFailure() { this.Refuse? }
    function PropagateFailure<U>(): Step<U> requires IsFailure() { Refuse }
    function Extract(): (T, seq<byte>, nat) requires !IsFailure() { (this.value, this.rest, this.count) }
  }

  function Counted<T>(r: Read<T>, count: nat): Step<T> {
    match r case Got(v, rest) => Done(v, rest, count) case Reject => Refuse
  }

  function Literal(text: seq<byte>, v: Value, s: seq<byte>, count: nat): Step<Value> {
    if text <= s then Done(v, s[|text|..], count) else Refuse
  }

  function ParseValue(lim: ParseLimits, depth: nat, count: nat, s: seq<byte>): (r: Step<Value>)
    ensures r.Done? ==> |r.rest| < |s|
    decreases |s|, 2
  {
    var t := SkipWhitespace(s);
    if depth > lim.maxDepth || count >= lim.maxItems || t == [] then Refuse
    else if t[0] == OPEN_BRACE then
      var u := SkipWhitespace(t[1..]);
      if StartsWith(u, CLOSE_BRACE) then Done(Object(NoMembers), u[1..], count + 1)
      else
        var (members, rest, n) :- ParseMembers(lim, depth, count + 1, t[1..], {}, 0);
        Done(Object(members), rest, n)
    else if t[0] == OPEN_BRACKET then
      var u := SkipWhitespace(t[1..]);
      if StartsWith(u, CLOSE_BRACKET) then Done(Array(NoItems), u[1..], count + 1)
      else
        var (items, rest, n) :- ParseItems(lim, depth, count + 1, t[1..], 0);
        Done(Array(items), rest, n)
    else if t[0] == QUOTE then
      var (text, rest, n) :- Counted(ParseString(lim.maxStringBytes, t[1..], []), count + 1);
      Done(Text(text), rest, n)
    else if t[0] == 116 then Literal(TRUE_TEXT, Boolean(true), t, count + 1)
    else if t[0] == 102 then Literal(FALSE_TEXT, Boolean(false), t, count + 1)
    else if t[0] == 110 then Literal(NULL_TEXT, Null, t, count + 1)
    else if t[0] == MINUS || IsDigit(t[0]) then Counted(ParseNumber(t), count + 1)
    else Refuse
  }

  /** The elements of an array, up to its closing bracket. */
  function ParseItems(lim: ParseLimits, depth: nat, count: nat, s: seq<byte>, size: nat): (r: Step<Items>)
    ensures r.Done? ==> |r.rest| < |s|
    decreases |s|, 3
  {
    var (v, s1, n) :- ParseValue(lim, depth + 1, count, s);
    var t := SkipWhitespace(s1);
    if size >= lim.maxArrayItems || t == [] then Refuse
    else if t[0] == COMMA then
      var (tail, rest, m) :- ParseItems(lim, depth, n, t[1..], size + 1);
      Done(Item(v, tail), rest, m)
    else if t[0] == CLOSE_BRACKET then Done(Item(v, NoItems), t[1..], n)
    else Refuse
  }

  /** The members of an object, up to its closing brace. */
  function ParseMembers(lim: ParseLimits, depth: nat, count: nat, s: seq<byte>, keys: set<seq<byte>>,
                        size: nat): (r: Step<Members>)
    ensures r.Done? ==> |r.rest| < |s|
    decreases |s|, 3
  {
    var t := SkipWhitespace(s);
    if !StartsWith(t, QUOTE) then Refuse
    else
      var (key, s1, _) :- Counted(ParseString(lim.maxStringBytes, t[1..], []), count);
      var u := SkipWhitespace(s1);
      if !StartsWith(u, COLON) then Refuse
      else
        var (v, s2, n) :- ParseValue(lim, depth + 1, count, u[1..]);
        var w := SkipWhitespace(s2);
        if size >= lim.maxObjectMembers || key in keys || w == [] then Refuse
        else if w[0] == COMMA then
          var (tail, rest, m) :- ParseMembers(lim, depth, n, w[1..], keys + {key}, size + 1);
          Done(Member(key, v, tail), rest, m)
        else if w[0] == CLOSE_BRACE then Done(Member(key, v, NoMembers), w[1..], n)
        else Refuse
  }

  function Parse(lim: ParseLimits, text: seq<byte>): Option<Value> {
    if text == [] || |text| > lim.maxBytes then None
    else
      var r := ParseValue(lim, 0, 0, text);
      if r.Done? && SkipWhitespace(r.rest) == [] then Some(r.value) else None
  }

  // ---------------------------------------------------------------- printing

  const DUMP_DEPTH_LIMIT: nat := 128

  function Decimal(n: nat): (s: seq<byte>)
    ensures |s| > 0
  {
    if n < 10 then [48 + n] else Decimal(n / 10) + [48 + n % 10]
  }

  function PutInteger(i: int, k: seq<byte>): seq<byte> {
    if i < 0 then [MINUS] + Decimal(-i) + k else Decimal(i) + k
  }

  function HexDigit(n: nat): byte
    requires n < 16
  {
    if n < 10 then 48 + n else 87 + n
  }

  function Escaped(c: byte): seq<byte> {
    if c == 34 then [92, 34]
    else if c == 92 then [92, 92]
    else if c == 8 then [92, 98]
    else if c == 12 then [92, 102]
    else if c == 10 then [92, 110]
    else if c == 13 then [92, 114]
    else if c == 9 then [92, 116]
    else if c < 0x20 then [92, 117, 48, 48, HexDigit(c / 16), HexDigit(c % 16)]
    else [c]
  }

  function PutCharacters(text: seq<byte>, k: seq<byte>): seq<byte> {
    if text == [] then k else Escaped(text[0]) + PutCharacters(text[1..], k)
  }

  function PutString(text: seq<byte>, k: seq<byte>): seq<byte> {
    [QUOTE] + PutCharacters(text, [QUOTE] + k)
  }

  function Spaces(n: nat): seq<byte> {
    if n == 0 then [] else [SPACE] + Spaces(n - 1)
  }

  function PutIndent(indent: nat, depth: nat, k: seq<byte>): seq<byte> {
    if indent == 0 then k else [NEWLINE] + Spaces(indent * depth) + k
  }

  function PutValue(v: Value, indent: nat, depth: nat, k: seq<byte>): seq<byte>
    decreases v, 1
  {
    if depth > DUMP_DEPTH_LIMIT then NULL_TEXT + k
    else
      match v
      case Null => NULL_TEXT + k
      case Boolean(b) => (if b then TRUE_TEXT else FALSE_TEXT) + k
      case Integer(i) => PutInteger(i, k)
      case Unsigned(u) => PutInteger(u, k)
      case Real(literal) => literal + k
      case Text(text) => PutString(text, k)
      case Array(items) =>
        if items.NoItems? then [OPEN_BRACKET, CLOSE_BRACKET] + k else [OPEN_BRACKET] + PutItems(items, indent, depth, k)
      case Object(members) =>
        if members.NoMembers? then [OPEN_BRACE, CLOSE_BRACE] + k
        else [OPEN_BRACE] + PutMembers(members, indent, depth, k)
  }

  function PutItems(items: Items, indent: nat, depth: nat, k: seq<byte>): seq<byte>
    requires items.Item?
    decreases items, 0
  {
    var after :=
      if items.tail.NoItems? then PutIndent(indent, depth, [CLOSE_BRACKET] + k)
      else [COMMA] + PutItems(items.tail, indent, depth, k);
    PutIndent(indent, depth + 1, PutValue(items.head, indent, depth + 1, after))
  }

  function PutMembers(members: Members, indent: nat, depth: nat, k: seq<byte>): seq<byte>
    requires members.Member?
    decreases members, 0
  {
    var after :=
      if members.rest.NoMembers? then PutIndent(indent, depth, [CLOSE_BRACE] + k)
      else [COMMA] + PutMembers(members.rest, indent, depth, k);
    var value := (if indent > 0 then [SPACE] else []) + PutValue(members.value, indent, depth + 1, after);
    PutIndent(indent, depth + 1, PutString(members.key, [COLON] + value))
  }

  function Dump(v: Value, indent: nat): seq<byte> {
    PutValue(v, indent, 0, [])
  }

  // ---------------------------------------------------------------- strings read back

  lemma HexReadsBack(n: nat)
    requires n < 16
    ensures HexValue(HexDigit(n)) == Some(n)
  {}

  lemma EscapeReadsBack(max: nat, c: byte, rest: seq<byte>, sofar: seq<byte>)
    requires |sofar| + 1 <= max
    ensures ParseString(max, Escaped(c) + rest, sofar) == ParseString(max, rest, sofar + [c])
  {
    var s := Escaped(c) + rest;
    if Escaped(c) == [c] {
      assert s[1..] == rest;
    } else if |Escaped(c)| == 2 {
      assert s[1..][1..] == rest;
      assert ParseEscape(s[1..]) == Got([c], rest);
    } else {
      HexReadsBack(c / 16);
      HexReadsBack(c % 16);
      var t := s[1..][1..];
      assert t[0] == 48 && t[1] == 48 && t[2] == HexDigit(c / 16) && t[3] == HexDigit(c % 16) && t[4..] == rest;
      assert ParseHex4(t) == Got(c, rest);
      assert ParseUnicode(t) == Got([c], rest);
      assert ParseEscape(s[1..]) == Got([c], rest);
    }
  }

  /** Every string of bytes is read back from its escaped form. */
  lemma {:induction false} StringReadsBack(max: nat, text: seq<byte>, k: seq<byte>, sofar: seq<byte>)
    requires |sofar| + |text| <= max
    ensures ParseString(max, PutCharacters(text, [QUOTE] + k), sofar) == Got(sofar + text, k)
    decreases |text|
  {
    hide Escaped;
    if text == [] {
      assert ([QUOTE] + k)[1..] == k && sofar + text == sofar;
    } else {
      EscapeReadsBack(max, text[0], PutCharacters(text[1..], [QUOTE] + k), sofar);
      StringReadsBack(max, text[1..], k, sofar + [text[0]]);
      assert sofar + [text[0]] + text[1..] == sofar + text;
    }
  }

  // ---------------------------------------------------------------- numbers read back

  /** What can come after a value in printed text. */
  predicate Follows(k: seq<byte>) {
    k == [] || k[0] == COMMA || k[0] == CLOSE_BRACKET || k[0] == CLOSE_BRACE || k[0] == NEWLINE
  }

  lemma {:induction false} DecimalFacts(n: nat)
    ensures NumberOf(Decimal(n)) == n
    ensures forall i :: 0 <= i < |Decimal(n)| ==> IsDigit(Decimal(n)[i])
    ensures |Decimal(n)| > 1 ==> Decimal(n)[0] != ZERO
  {
    if n >= 10 {
      DecimalFacts(n / 10);
      assert Decimal(n)[..|Decimal(n)| - 1] == Decimal(n / 10);
    } else {
      var d := Decimal(n);
      assert d[..|d| - 1] == [];
    }
  }

  lemma {:induction false} DigitsOf(digits: seq<byte>, k: seq<byte>)
    requires (forall i :: 0 <= i < |digits| ==> IsDigit(digits[i])) && (k == [] || !IsDigit(k[0]))
    ensures Digits(digits + k) == |digits|
    decreases |digits|
  {
    if digits == [] {
      assert digits + k == k;
    } else {
      assert (digits + k)[1..] == digits[1..] + k;
      DigitsOf(digits[1..], k);
    }
  }

  /** An integer is read back, in the type its magnitude gives it. */
  lemma IntegerReadsBack(i: int, k: seq<byte>)
    requires 0 - TWO63 <= i < TWO64 && Follows(k)
    ensures ParseNumber(PutInteger(i, k)) == Got(if i < TWO63 then Integer(i) else Unsigned(i), k)
    ensures PutInteger(i, k) != [] && (PutInteger(i, k)[0] == MINUS || IsDigit(PutInteger(i, k)[0]))
  {
    hide Decimal, NumberOf, Digits, FractionLength;
    var m := if i < 0 then -i else i;
    DecimalFacts(m);
    DigitsOf(Decimal(m), k);
    var s, t := PutInteger(i, k), Decimal(m) + k;
    assert t[..|Decimal(m)|] == Decimal(m) && t[|Decimal(m)|..] == k;
    if i < 0 { assert s == [MINUS] + t && s[1..] == t; }
    NoFraction(k);
  }

  lemma NoFraction(k: seq<byte>)
    requires Follows(k)
    ensures FractionLength(k) == Some(0)
  {
    assert k[0..] == k;
  }

  // ---------------------------------------------------------------- whitespace

  lemma {:induction false} SkipsSpaces(n: nat, s: seq<byte>)
    ensures SkipWhitespace(Spaces(n) + s) == SkipWhitespace(s)
  {
    if n == 0 {
      assert Spaces(0) + s == s;
    } else {
      assert (Spaces(n) + s)[1..] == Spaces(n - 1) + s;
      SkipsSpaces(n - 1, s);
    }
  }

  lemma SkipsIndent(indent: nat, depth: nat, s: seq<byte>)
    ensures SkipWhitespace(PutIndent(indent, depth, s)) == SkipWhitespace(s)
  {
    if indent > 0 {
      var t := PutIndent(indent, depth, s);
      assert t[1..] == Spaces(indent * depth) + s;
      SkipsSpaces(indent * depth, s);
    }
  }

  lemma ParseValueSkips(lim: ParseLimits, depth: nat, count: nat, s: seq<byte>, t: seq<byte>)
    requires SkipWhitespace(s) == SkipWhitespace(t)
    ensures ParseValue(lim, depth, count, s) == ParseValue(lim, depth, count, t)
  {
    hide ParseItems, ParseMembers, ParseString, ParseNumber, SkipWhitespace;
  }

  // ---------------------------------------------------------------- values read back

  function Size(v: Value): nat {
    match v
    case Array(items) => 1 + ItemsSize(items)
    case Object(members) => 1 + MembersSize(members)
    case _ => 1
  }

  function ItemsSize(items: Items): nat { if items.NoItems? then 0 else Size(items.head) + ItemsSize(items.tail) }

  function MembersSize(members: Members): nat { if members.NoMembers? then 0
    else Size(members.value) + MembersSize(members.rest) }

  function Length(items: Items): nat { if items.NoItems? then 0 else 1 + Length(items.tail) }

  function MemberCount(members: Members): nat { if members.NoMembers? then 0 else 1 + MemberCount(members.rest) }

  function Keys(members: Members): set<seq<byte>> { if members.NoMembers? then {}
    else {members.key} + Keys(members.rest) }

  /** Free of reals, in range, within the limits, and nested no deeper than printer and parser allow. */
  predicate Fits(lim: ParseLimits, v: Value, depth: nat) {
    && depth <= lim.maxDepth && depth <= DUMP_DEPTH_LIMIT
    && match v
       case Integer(i) => 0 - TWO63 <= i < TWO63
       case Unsigned(u) => u < TWO64
       case Real(_) => false
       case Text(text) => |text| <= lim.maxStringBytes
       case Array(items) => Length(items) <= lim.maxArrayItems && ItemsFit(lim, items, depth)
       case Object(members) => MemberCount(members) <= lim.maxObjectMembers && MembersFit(lim, members, depth)
       case _ => true
  }

  predicate ItemsFit(lim: ParseLimits, items: Items, depth: nat) {
    items.Item? ==> Fits(lim, items.head, depth + 1) && ItemsFit(lim, items.tail, depth)
  }

  predicate MembersFit(lim: ParseLimits, members: Members, depth: nat) {
    members.Member? ==>
      |members.key| <= lim.maxStringBytes && members.key !in Keys(members.rest)
      && Fits(lim, members.value, depth + 1) && MembersFit(lim, members.rest, depth)
  }

  /** A small unsigned number is read back as an integer; nothing else changes. */
  function Normal(v: Value): Value {
    match v
    case Unsigned(u) => if u < TWO63 then Integer(u) else v
    case Array(items) => Array(NormalItems(items))
    case Object(members) => Object(NormalMembers(members))
    case _ => v
  }

  function NormalItems(items: Items): Items { if items.NoItems? then NoItems
    else Item(Normal(items.head), NormalItems(items.tail)) }

  function NormalMembers(members: Members): Members {
    if members.NoMembers? then NoMembers else Member(members.key, Normal(members.value), NormalMembers(members.rest))
  }

  /** The first character of a printed value is neither blank nor a closing bracket. */
  lemma FirstCharacter(lim: ParseLimits, v: Value, indent: nat, depth: nat, k: seq<byte>)
    requires Fits(lim, v, depth)
    ensures var s := PutValue(v, indent, depth, k);
            s != [] && !IsWhitespace(s[0]) && s[0] != CLOSE_BRACKET && s[0] != CLOSE_BRACE && SkipWhitespace(s) == s
  {
    hide PutItems, PutMembers, PutCharacters, Decimal;
    match v {
      case Integer(i) => DecimalFacts(if i < 0 then -i else i);
      case Unsigned(u) => DecimalFacts(u);
      case _ =>
    }
  }

  lemma AfterItem(items: Items, indent: nat, depth: nat, k: seq<byte>)
    requires items.Item?
    ensures var after := if items.tail.NoItems? then PutIndent(indent, depth, [CLOSE_BRACKET] + k)
                         else [COMMA] + PutItems(items.tail, indent, depth, k);
            && Follows(after)
            && SkipWhitespace(after) == (if items.tail.NoItems? then [CLOSE_BRACKET] + k else after)
  {
    hide PutItems;
    SkipsIndent(indent, depth, [CLOSE_BRACKET] + k);
  }

  lemma AfterMember(members: Members, indent: nat, depth: nat, k: seq<byte>)
    requires members.Member?
    ensures var after := if members.rest.NoMembers? then PutIndent(indent, depth, [CLOSE_BRACE] + k)
                         else [COMMA] + PutMembers(members.rest, indent, depth, k);
            && Follows(after)
            && SkipWhitespace(after) == (if members.rest.NoMembers? then [CLOSE_BRACE] + k else after)
  {
    hide PutMembers;
    SkipsIndent(indent, depth, [CLOSE_BRACE] + k);
  }

  /** A printed value is read back, at any indent and any depth within the limits, whatever legally follows it. */
  lemma {:induction false} ValueReadsBack(lim: ParseLimits, v: Value, indent: nat, depth: nat, count: nat, k: seq<byte>)
    requires Fits(lim, v, depth) && count + Size(v) <= lim.maxItems && Follows(k)
    ensures ParseValue(lim, depth, count, PutValue(v, indent, depth, k)) == Done(Normal(v), k, count + Size(v))
    decreases v, 1
  {
    hide PutItems, PutMembers, ParseItems, ParseMembers, ParseString, ParseNumber, PutCharacters, PutInteger,
         SkipWhitespace, ItemsFit, MembersFit, NormalItems, NormalMembers, ItemsSize, MembersSize, Keys;
    var s := PutValue(v, indent, depth, k);
    FirstCharacter(lim, v, indent, depth, k);
    match v {
      case Null => assert s[4..] == k;
      case Boolean(b) => assert s[if b then 4 else 5..] == k;
      case Integer(i) => IntegerReadsBack(i, k);
      case Unsigned(u) => IntegerReadsBack(u, k);
      case Text(text) =>
        StringReadsBack(lim.maxStringBytes, text, k, []);
        assert s[1..] == PutCharacters(text, [QUOTE] + k) && [] + text == text;
      case Array(items) => ArrayReadsBack(lim, items, indent, depth, count, k);
      case Object(members) => ObjectReadsBack(lim, members, indent, depth, count, k);
    }
  }

  lemma ArrayReadsBack(lim: ParseLimits, items: Items, indent: nat, depth: nat, count: nat, k: seq<byte>)
    requires Fits(lim, Array(items), depth) && count + Size(Array(items)) <= lim.maxItems && Follows(k)
    ensures ParseValue(lim, depth, count, PutValue(Array(items), indent, depth, k))
            == Done(Normal(Array(items)), k, count + Size(Array(items)))
    decreases items, 3
  {
    hide PutItems, ParseItems, ItemsFit;
    var s := PutValue(Array(items), indent, depth, k);
    FirstCharacter(lim, Array(items), indent, depth, k);
    if items.NoItems? {
      assert s[1..] == [CLOSE_BRACKET] + k && s[1..][1..] == k;
    } else {
      assert s[1..] == PutItems(items, indent, depth, k);
      ItemsStart(lim, items, indent, depth, k);
      ItemsReadBack(lim, items, indent, depth, count + 1, k, 0);
    }
  }

  lemma ItemsStart(lim: ParseLimits, items: Items, indent: nat, depth: nat, k: seq<byte>)
    requires items.Item? && ItemsFit(lim, items, depth)
    ensures !StartsWith(SkipWhitespace(PutItems(items, indent, depth, k)), CLOSE_BRACKET)
  {
    hide PutValue, SkipWhitespace, Fits;
    var after := if items.tail.NoItems? then PutIndent(indent, depth, [CLOSE_BRACKET] + k)
    else [COMMA] + PutItems(items.tail, indent, depth, k);
    FirstCharacter(lim, items.head, indent, depth + 1, after);
    SkipsIndent(indent, depth + 1, PutValue(items.head, indent, depth + 1, after));
  }

  lemma {:induction false} ItemsReadBack(lim: ParseLimits, items: Items, indent: nat, depth: nat, count: nat,
                                         k: seq<byte>, size: nat)
    requires items.Item? && ItemsFit(lim, items, depth) && count + ItemsSize(items) <= lim.maxItems
             && size + Length(items) <= lim.maxArrayItems
    requires Follows(k)
    ensures ParseItems(lim, depth, count, PutItems(items, indent, depth, k), size)
            == Done(NormalItems(items), k, count + ItemsSize(items))
    decreases items, 2
  {
    hide PutValue, ParseValue, SkipWhitespace, Fits, PutIndent, Normal, Size;
    var after := if items.tail.NoItems? then PutIndent(indent, depth, [CLOSE_BRACKET] + k)
    else [COMMA] + PutItems(items.tail, indent, depth, k);
    var value := PutValue(items.head, indent, depth + 1, after);
    AfterItem(items, indent, depth, k);
    ValueReadsBack(lim, items.head, indent, depth + 1, count, after);
    SkipsIndent(indent, depth + 1, value);
    ParseValueSkips(lim, depth + 1, count, PutIndent(indent, depth + 1, value), value);
    if items.tail.NoItems? {
      assert ([CLOSE_BRACKET] + k)[1..] == k;
    } else {
      assert after[1..] == PutItems(items.tail, indent, depth, k);
      ItemsReadBack(lim, items.tail, indent, depth, count + Size(items.head), k, size + 1);
    }
  }

  lemma ObjectReadsBack(lim: ParseLimits, members: Members, indent: nat, depth: nat, count: nat, k: seq<byte>)
    requires Fits(lim, Object(members), depth) && count + Size(Object(members)) <= lim.maxItems && Follows(k)
    ensures ParseValue(lim, depth, count, PutValue(Object(members), indent, depth, k))
            == Done(Normal(Object(members)), k, count + Size(Object(members)))
    decreases members, 3
  {
    hide PutMembers, ParseMembers, MembersFit, Keys;
    var s := PutValue(Object(members), indent, depth, k);
    FirstCharacter(lim, Object(members), indent, depth, k);
    if members.NoMembers? {
      assert s[1..] == [CLOSE_BRACE] + k && s[1..][1..] == k;
    } else {
      assert s[1..] == PutMembers(members, indent, depth, k);
      MembersStart(members, indent, depth, k);
      MembersReadBack(lim, members, indent, depth, count + 1, k, {}, 0);
    }
  }

  /** The text from the opening quote of a member on. */
  function PutMember(members: Members, indent: nat, depth: nat, k: seq<byte>): seq<byte>
    requires members.Member?
  {
    var after :=
      if members.rest.NoMembers? then PutIndent(indent, depth, [CLOSE_BRACE] + k)
      else [COMMA] + PutMembers(members.rest, indent, depth, k);
    PutString(members.key, [COLON] + ((if indent > 0 then [SPACE] else [])
                                      + PutValue(members.value, indent, depth + 1, after)))
  }

  lemma MembersStart(members: Members, indent: nat, depth: nat, k: seq<byte>)
    requires members.Member?
    ensures SkipWhitespace(PutMembers(members, indent, depth, k)) == PutMember(members, indent, depth, k)
    ensures StartsWith(PutMember(members, indent, depth, k), QUOTE)
  {
    hide PutValue, PutCharacters;
    SkipsIndent(indent, depth + 1, PutMember(members, indent, depth, k));
  }

  lemma SkipsGap(lim: ParseLimits, depth: nat, count: nat, indent: nat, value: seq<byte>)
    ensures ParseValue(lim, depth, count, (if indent > 0 then [SPACE] else []) + value)
            == ParseValue(lim, depth, count, value)
  {
    hide ParseValue;
    if indent > 0 {
      var s := [SPACE] + value;
      assert s[1..] == value;
      ParseValueSkips(lim, depth, count, s, value);
    } else {
      assert [] + value == value;
    }
  }

  lemma {:induction false} MembersReadBack(lim: ParseLimits, members: Members, indent: nat, depth: nat, count: nat,
                                           k: seq<byte>, keys: set<seq<byte>>, size: nat)
    requires members.Member? && MembersFit(lim, members, depth) && count + MembersSize(members) <= lim.maxItems
    requires size + MemberCount(members) <= lim.maxObjectMembers && Keys(members) !! keys && Follows(k)
    ensures ParseMembers(lim, depth, count, PutMembers(members, indent, depth, k), keys, size)
         == Done(NormalMembers(members), k, count + MembersSize(members))
    decreases members, 2
  {
    hide PutValue, ParseValue, SkipWhitespace, Fits, PutIndent, Normal, Size, PutMembers, PutCharacters, ParseString,
         PutMember;
    var after :=
      if members.rest.NoMembers? then PutIndent(indent, depth, [CLOSE_BRACE] + k)
      else [COMMA] + PutMembers(members.rest, indent, depth, k);
    var value := (if indent > 0 then [SPACE] else []) + PutValue(members.value, indent, depth + 1, after);
    AfterMember(members, indent, depth, k);
    MembersStart(members, indent, depth, k);
    MemberKey(lim, members, indent, depth, k, after, value);
    SkipsGap(lim, depth + 1, count, indent, PutValue(members.value, indent, depth + 1, after));
    ValueReadsBack(lim, members.value, indent, depth + 1, count, after);
    assert members.key in Keys(members);
    if members.rest.NoMembers? {
      assert ([CLOSE_BRACE] + k)[1..] == k;
    } else {
      assert after[1..] == PutMembers(members.rest, indent, depth, k);
      MembersReadBack(lim, members.rest, indent, depth, count + Size(members.value), k, keys + {members.key}, size + 1);
    }
  }

  lemma MemberKey(lim: ParseLimits, members: Members, indent: nat, depth: nat, k: seq<byte>, after: seq<byte>,
                  value: seq<byte>)
    requires members.Member? && |members.key| <= lim.maxStringBytes
    requires after == if members.rest.NoMembers? then PutIndent(indent, depth, [CLOSE_BRACE] + k)
                      else [COMMA] + PutMembers(members.rest, indent, depth, k)
    requires value == (if indent > 0 then [SPACE] else []) + PutValue(members.value, indent, depth + 1, after)
    ensures var s := PutMember(members, indent, depth, k);
            StartsWith(s, QUOTE) && ParseString(lim.maxStringBytes, s[1..], []) == Got(members.key, [COLON] + value)
    ensures SkipWhitespace([COLON] + value) == [COLON] + value && ([COLON] + value)[1..] == value
  {
    hide PutValue, PutCharacters, ParseString, PutMembers, PutIndent;
    var s := PutMember(members, indent, depth, k);
    StringReadsBack(lim.maxStringBytes, members.key, [COLON] + value, []);
    assert s[1..] == PutCharacters(members.key, [QUOTE] + ([COLON] + value)) && [] + members.key == members.key;
  }

  /** Parsing what was printed gives back what was printed. */
  lemma DumpReadsBack(lim: ParseLimits, v: Value, indent: nat)
    requires Fits(lim, v, 0) && Size(v) <= lim.maxItems && |Dump(v, indent)| <= lim.maxBytes
    ensures Parse(lim, Dump(v, indent)) == Some(Normal(v))
  {
    hide PutValue, ParseValue, Fits, Normal, Size;
    FirstCharacter(lim, v, indent, 0, []);
    ValueReadsBack(lim, v, indent, 0, 0, []);
  }

  // ---------------------------------------------------------------- canonical printing

  function Lookup(members: Members, key: seq<byte>): Option<Value> {
    if members.NoMembers? then None
    else if members.key == key then Some(members.value)
    else Lookup(members.rest, key)
  }

  /** Members in the order of the given keys. */
  function InOrder(members: Members, keys: seq<seq<byte>>): Members {
    if keys == [] then NoMembers
    else
      var v := Lookup(members, keys[0]);
      if v.Some? then Member(keys[0], v.value, InOrder(members, keys[1..])) else InOrder(members, keys[1..])
  }

  /** Members sorted by key, at every level. */
  function Canonical(v: Value): Value {
    match v
    case Array(items) => Array(CanonicalItems(items))
    case Object(members) => Object(InOrder(CanonicalMembers(members), SortedKeys(Keys(members))))
    case _ => v
  }

  function CanonicalItems(items: Items): Items {
    if items.NoItems? then NoItems else Item(Canonical(items.head), CanonicalItems(items.tail))
  }

  function CanonicalMembers(members: Members): Members {
    if members.NoMembers? then NoMembers
    else Member(members.key, Canonical(members.value), CanonicalMembers(members.rest))
  }

  function DumpCanonical(v: Value, indent: nat): seq<byte> {
    Dump(Canonical(v), indent)
  }

  /** The same value, up to the order of members at any level. */
  predicate Shuffled(v: Value, w: Value)
    decreases v, 1
  {
    match v
    case Array(items) => w.Array? && ShuffledItems(items, w.items)
    case Object(members) => w.Object? && Keys(members) == Keys(w.members) && ShuffledMembers(members, w.members)
    case _ => v == w
  }

  predicate ShuffledItems(a: Items, b: Items)
    decreases a, 0
  {
    if a.NoItems? then b.NoItems? else b.Item? && Shuffled(a.head, b.head) && ShuffledItems(a.tail, b.tail)
  }

  /** Every member of `a` that a lookup reaches has its counterpart in `b`. */
  predicate ShuffledMembers(a: Members, b: Members)
    decreases a, 0
  {
    a.Member? ==>
      && Lookup(b, a.key).Some? && Shuffled(a.value, Lookup(b, a.key).value) && ShuffledMembers(a.rest, b)
  }

  lemma {:induction false} CanonicalLookup(members: Members, key: seq<byte>)
    ensures Lookup(CanonicalMembers(members), key)
         == match Lookup(members, key) case Some(v) => Some(Canonical(v)) case None => None
    ensures Lookup(members, key).Some? <==> key in Keys(members)
    decreases members
  {
    hide Canonical;
    if members.Member? { CanonicalLookup(members.rest, key); }
  }

  /** Values that differ only in member order have one canonical form. */
  lemma {:induction false} CanonicalIgnoresOrder(v: Value, w: Value)
    requires Shuffled(v, w)
    ensures Canonical(v) == Canonical(w)
    decreases v, 1
  {
    match v {
      case Array(items) => CanonicalItemsAgree(items, w.items);
      case Object(members) =>
        forall key | key in Keys(members)
          ensures Lookup(CanonicalMembers(members), key) == Lookup(CanonicalMembers(w.members), key)
        {
          CanonicalLookup(members, key);
          CanonicalLookup(w.members, key);
          CounterpartAgrees(members, w.members, key);
        }
        var keys := SortedKeys(Keys(members));
        assert forall key :: key in keys ==> key in Elements(keys);
        InOrderAgrees(CanonicalMembers(members), CanonicalMembers(w.members), keys);
      case _ =>
    }
  }

  lemma CanonicalTextIgnoresOrder(v: Value, w: Value, indent: nat)
    requires Shuffled(v, w)
    ensures DumpCanonical(v, indent) == DumpCanonical(w, indent)
  {
    CanonicalIgnoresOrder(v, w);
  }

  lemma {:induction false} CanonicalItemsAgree(a: Items, b: Items)
    requires ShuffledItems(a, b)
    ensures CanonicalItems(a) == CanonicalItems(b)
    decreases a, 0
  {
    if a.Item? {
      CanonicalIgnoresOrder(a.head, b.head);
      CanonicalItemsAgree(a.tail, b.tail);
    }
  }

  lemma {:induction false} CounterpartAgrees(a: Members, b: Members, key: seq<byte>)
    requires ShuffledMembers(a, b) && Lookup(a, key).Some?
    ensures Lookup(b, key).Some? && Canonical(Lookup(a, key).value) == Canonical(Lookup(b, key).value)
    decreases a, 0
  {
    hide Canonical;
    if a.key == key {
      CanonicalIgnoresOrder(a.value, Lookup(b, key).value);
    } else {
      CounterpartAgrees(a.rest, b, key);
    }
  }

  lemma {:induction false} InOrderAgrees(a: Members, b: Members, keys: seq<seq<byte>>)
    requires forall key :: key in keys ==> Lookup(a, key) == Lookup(b, key)
    ensures InOrder(a, keys) == InOrder(b, keys)
    decreases |keys|
  {
    hide Lookup;
    if keys != [] { InOrderAgrees(a, b, keys[1..]); }
  }

  // ---------------------------------------------------------------- the loops over text

  method SkipBlanks(text: seq<byte>, position: nat) returns (end: nat)
    requires position <= |text|
    ensures position <= end <= |text| && text[end..] == SkipWhitespace(text[position..])
  {
    end := position;
    while end < |text| && IsWhitespace(text[end])
      invariant position <= end <= |text| && SkipWhitespace(text[end..]) == SkipWhitespace(text[position..])
    {
      assert text[end..][1..] == text[end + 1..];
      end := end + 1;
    }
  }

  /** Read a string from just after its opening quote. */
  method ScanString(max: nat, text: seq<byte>, position: nat) returns (result: Option<seq<byte>>, end: nat)
    requires position <= |text|
    ensures position <= end <= |text|
    ensures match ParseString(max, text[position..], [])
            case Got(value, rest) => result == Some(value) && text[end..] == rest
            case Reject => result.None?
  {
    hide ParseEscape;
    var sofar: seq<byte> := [];
    end := position;
    while true
      invariant position <= end <= |text|
      invariant ParseString(max, text[position..], []) == ParseString(max, text[end..], sofar)
      decreases |text| - end
    {
      if end >= |text| || text[end] < 0x20 {
        return None, end;
      }
      assert text[end..][1..] == text[end + 1..];
      if text[end] == QUOTE {
        return Some(sofar), end + 1;
      }
      if text[end] == BACKSLASH {
        var escape := ParseEscape(text[end + 1..]);
        if escape.Reject? || |sofar + escape.value| > max {
          return None, end;
        }
        EscapeIsSuffix(text[end + 1..]);
        sofar := sofar + escape.value;
        ghost var rest := escape.rest;
        end := |text| - |escape.rest|;
        assert text[end..] == rest;
      } else {
        if |sofar| + 1 > max {
          return None, end;
        }
        sofar := sofar + [text[end]];
        end := end + 1;
      }
    }
  }

  /** An escape is read off the front. */
  lemma EscapeIsSuffix(s: seq<byte>)
    requires ParseEscape(s).Got?
    ensures |ParseEscape(s).rest| < |s| && ParseEscape(s).rest == s[|s| - |ParseEscape(s).rest|..]
  {}

  method AppendEscaped(out: seq<byte>, text: seq<byte>) returns (r: seq<byte>)
    ensures r == out + PutString(text, [])
  {
    hide Escaped;
    r := out + [QUOTE];
    var n := 0;
    assert text[0..] == text && [QUOTE] + [] == [QUOTE];
    while n < |text|
      invariant 0 <= n <= |text|
      invariant out + PutString(text, []) == r + PutCharacters(text[n..], [QUOTE])
    {
      assert text[n..][1..] == text[n + 1..];
      r := r + Escaped(text[n]);
      n := n + 1;
    }
    r := r + [QUOTE];
  }
}
