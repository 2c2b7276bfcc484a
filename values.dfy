/// JavaScript values as they travel through request bodies, tool inputs and REST
/// payloads, together with the built-in conversions the service relies on:
/// truthiness, `String(v)`, `parseInt(s)`, `Number(v)`, `Array.prototype.join`
/// and the tag-stripping `replace(/<[^>]*>/g, '')`.
module Values {

  datatype Option<+T> = None | Some(value: T)

  /** The outcome of a call into a foreign SDK: its response, or the message of the error it threw. */
  datatype Result<+T> = Ok(value: T) | Err(error: string)

  /** A JSON primitive. Numbers are integers here (see README, "Left out"). */
  datatype Value = Undefined | Null | Bool(b: bool) | Num(n: int) | Str(s: string)

  /** JavaScript truthiness: `undefined`, `null`, `false`, `0` and `''` are falsy. */
  predicate Truthy(v: Value) {
    match v
    case Undefined => false
    case Null => false
    case Bool(b) => b
    case Num(n) => n != 0
    case Str(s) => s != ""
  }

  /** `a || b` */
  function Or(a: Value, b: Value): Value {
    if Truthy(a) then a else b
  }

  /** Property read on a plain object: a missing key reads as `undefined`. */
  function Get(obj: map<string, Value>, key: string): Value {
    if key in obj then obj[key] else Undefined
  }

  /** The names every plain object inherits from `Object.prototype`; an object
      literal used as a lookup table answers each of them with a truthy value. */
  const ObjectPrototypeKeys: set<string> :=
    {"constructor", "__defineGetter__", "__defineSetter__", "hasOwnProperty",
     "__lookupGetter__", "__lookupSetter__", "isPrototypeOf", "propertyIsEnumerable",
     "toString", "valueOf", "__proto__", "toLocaleString"}

  /** What an object-literal lookup table answers for a key: one of its own
      entries, a member every object inherits, or (falsy) nothing. */
  datatype LabelLookup = OwnLabel(text: string) | InheritedMember(name: string) | NoLabel

  // ---------------------------------------------------------------------------
  // Number to string
  // ---------------------------------------------------------------------------

  function DigitChar(d: nat): (c: char)
    requires d < 10
  {
    (48 + d) as char
  }

  function NatDecimal(n: nat): string
    decreases n
  {
    if n < 10 then [DigitChar(n)] else NatDecimal(n / 10) + [DigitChar(n % 10)]
  }

  /** `String(n)` for an integer-valued number. */
  function Decimal(n: int): string {
    if n < 0 then "-" + NatDecimal(-n) else NatDecimal(n)
  }

  /** `String(v)`, which is also what a template literal `${v}` inserts. */
  function ToString(v: Value): string {
    match v
    case Undefined => "undefined"
    case Null => "null"
    case Bool(b) => if b then "true" else "false"
    case Num(n) => Decimal(n)
    case Str(s) => s
  }

  // ---------------------------------------------------------------------------
  // String to number
  // ---------------------------------------------------------------------------

  /** The white space and line terminators that `parseInt` and `Number` skip. */
  const WhiteSpace: set<char> :=
    {'\t', '\n', '\U{000B}', '\U{000C}', '\r', ' ', '\U{00A0}', '\U{1680}',
     '\U{2000}', '\U{2001}', '\U{2002}', '\U{2003}', '\U{2004}', '\U{2005}',
     '\U{2006}', '\U{2007}', '\U{2008}', '\U{2009}', '\U{200A}', '\U{2028}',
     '\U{2029}', '\U{202F}', '\U{205F}', '\U{3000}', '\U{FEFF}'}

  function TrimStart(s: string): (r: string)
    ensures |r| <= |s| && r == s[|s| - |r|..]
    ensures r == [] || r[0] !in WhiteSpace
  {
    if s != [] && s[0] in WhiteSpace then
      var r := TrimStart(s[1..]);
      assert s[1..][|s| - 1 - |r|..] == s[|s| - |r|..];
      r
    else s
  }

  function TrimEnd(s: string): (r: string)
    ensures |r| <= |s| && r == s[..|r|]
    ensures r == [] || r[|r| - 1] !in WhiteSpace
  {
    if s != [] && s[|s| - 1] in WhiteSpace then
      var r := TrimEnd(s[..|s| - 1]);
      assert s[..|s| - 1][..|r|] == s[..|r|];
      r
    else s
  }

  /** The value of `c` as a digit in base 10 or 16. */
  function DigitValue(c: char, hex: bool): (d: Option<nat>)
    ensures d.Some? ==> d.value < (if hex then 16 else 10)
  {
    if '0' <= c <= '9' then Some(c as int - '0' as int)
    else if hex && 'a' <= c <= 'f' then Some(c as int - 'a' as int + 10)
    else if hex && 'A' <= c <= 'F' then Some(c as int - 'A' as int + 10)
    else None
  }

  predicate AllDigits(s: string, hex: bool) {
    forall i :: 0 <= i < |s| ==> DigitValue(s[i], hex).Some?
  }

  /** The length of the longest prefix of `s` made of digits. */
  function DigitRun(s: string, hex: bool): (n: nat)
    ensures n <= |s| && AllDigits(s[..n], hex)
    ensures n < |s| ==> DigitValue(s[n], hex).None?
  {
    if s != [] && DigitValue(s[0], hex).Some? then
      var rest := DigitRun(s[1..], hex);
      assert s[..1 + rest] == [s[0]] + s[1..][..rest];
      1 + rest
    else 0
  }

  /** The number a run of digits denotes, most significant digit first. */
  function DigitsValue(ds: string, hex: bool): nat
    requires AllDigits(ds, hex)
  {
    if ds == [] then 0
    else DigitsValue(ds[..|ds| - 1], hex) * (if hex then 16 else 10)
         + DigitValue(ds[|ds| - 1], hex).value
  }

  /** An unsigned integer as `parseInt` reads it once the sign is gone: base
      16 after `0x`/`0X`, then the longest run of digits; `None` stands for NaN. */
  function ParseUnsigned(u: string): Option<nat> {
    var hex := |u| >= 2 && u[0] == '0' && (u[1] == 'x' || u[1] == 'X');
    var body := if hex then u[2..] else u;
    var n := DigitRun(body, hex);
    if n == 0 then None else Some(DigitsValue(body[..n], hex))
  }

  function Negated(r: Option<nat>, negative: bool): Option<int> {
    match r
    case None => None
    case Some(m) =>
      var v: int := if negative then -(m as int) else m;
      Some(v)
  }

  /** The global `parseInt(s)` with no radix (section 19.2.5 of ECMA-262):
      skip leading white space, read an optional sign, then an unsigned integer. */
  function ParseInt(s: string): Option<int> {
    var t := TrimStart(s);
    if t != [] && (t[0] == '-' || t[0] == '+') then Negated(ParseUnsigned(t[1..]), t[0] == '-')
    else ParseUnsigned(t)
  }

  /** A trimmed, non-empty string as `Number` reads it: a signed decimal
      integer or an unsigned `0x` integer is its value, anything else is NaN. */
  function NumericLiteral(t: string): Option<int>
    requires t != []
  {
    if |t| >= 2 && t[0] == '0' && (t[1] == 'x' || t[1] == 'X') then
      if |t| > 2 && AllDigits(t[2..], true) then Some(DigitsValue(t[2..], true)) else None
    else
      var u := if t[0] == '-' || t[0] == '+' then t[1..] else t;
      if u != [] && AllDigits(u, false) then Negated(Some(DigitsValue(u, false)), t[0] == '-')
      else None
  }

  /** `Number(s)` for the forms read here. Blank text is 0; other text is read as a numeric literal. */
  function StringToNumber(s: string): Option<int> {
    var t := TrimEnd(TrimStart(s));
    if t == [] then Some(0) else NumericLiteral(t)
  }

  /** The abstract operation ToNumber; `None` stands for NaN. */
  function ToNumber(v: Value): Option<int> {
    match v
    case Undefined => None
    case Null => Some(0)
    case Bool(b) => Some(if b then 1 else 0)
    case Num(n) => Some(n)
    case Str(s) => StringToNumber(s)
  }

  /** `n < v` with `n` a number: NaN compares false. */
  predicate NumLess(n: int, v: Value) {
    match ToNumber(v)
    case Some(m) => n < m
    case None => false
  }

  lemma {:induction false} NatDecimalDigits(n: nat)
    ensures NatDecimal(n) != [] && AllDigits(NatDecimal(n), false)
    ensures DigitsValue(NatDecimal(n), false) == n
    ensures NatDecimal(n)[0] == '0' <==> n == 0
    decreases n
  {
    if n >= 10 {
      var front := NatDecimal(n / 10);
      NatDecimalDigits(n / 10);
      assert NatDecimal(n) == front + [DigitChar(n % 10)];
      assert NatDecimal(n)[..|NatDecimal(n)| - 1] == front;
    }
  }

  /** A decimal numeral without a superfluous leading zero reads as its value. */
  lemma ParseUnsignedNumeral(u: string)
    requires u != [] && AllDigits(u, false) && (|u| >= 2 ==> u[0] != '0')
    ensures ParseUnsigned(u) == Some(DigitsValue(u, false))
  {
    assert DigitRun(u, false) == |u|;
    assert u[..|u|] == u;
  }

  /** A numeral starting with a digit or a minus sign has no white space to trim. */
  lemma TrimNumeral(s: string)
    requires s != [] && (s[0] == '-' || '0' <= s[0] <= '9') && '0' <= s[|s| - 1] <= '9'
    ensures TrimStart(s) == s && TrimEnd(s) == s
  {
    assert s[0] !in WhiteSpace;
    assert s[|s| - 1] !in WhiteSpace;
  }

  /** The digits `String` writes for a natural number, and what they read as. */
  lemma NatDecimalNumeral(m: nat)
    ensures var d := NatDecimal(m);
      && d != [] && AllDigits(d, false) && '0' <= d[0] <= '9' && '0' <= d[|d| - 1] <= '9'
      && (|d| >= 2 ==> d[0] != '0')
      && DigitsValue(d, false) == m && ParseUnsigned(d) == Some(m)
  {
    NatDecimalDigits(m);
    var d := NatDecimal(m);
    assert DigitValue(d[0], false).Some? && DigitValue(d[|d| - 1], false).Some?;
    if m == 0 {
      assert d == ['0'];
    }
    ParseUnsignedNumeral(d);
  }

  /** Reading back what `String(n)` wrote gives `n`. */
  lemma ParseIntDecimal(n: int)
    ensures ParseInt(Decimal(n)) == Some(n)
  {
    var m: nat := if n < 0 then -n else n;
    NatDecimalNumeral(m);
    var d := NatDecimal(m);
    var s := Decimal(n);
    if n < 0 {
      assert s == "-" + d && s[1..] == d;
      TrimNumeral(s);
      assert ParseInt(s) == Negated(ParseUnsigned(d), true);
    } else {
      TrimNumeral(d);
    }
  }

  lemma NumericLiteralDecimal(n: int)
    ensures Decimal(n) != [] && NumericLiteral(Decimal(n)) == Some(n)
  {
    var m: nat := if n < 0 then -n else n;
    NatDecimalNumeral(m);
    var d := NatDecimal(m);
    var s := Decimal(n);
    if n < 0 {
      assert s == "-" + d && s[1..] == d;
      assert !(|s| >= 2 && s[0] == '0');
    } else {
      assert s == d;
      assert !(|d| >= 2 && d[0] == '0');
      assert d[0] != '-' && d[0] != '+';
    }
  }

  /** `Number(String(n))` is `n`. */
  lemma StringToNumberDecimal(n: int)
    ensures StringToNumber(Decimal(n)) == Some(n)
  {
    var m: nat := if n < 0 then -n else n;
    NatDecimalNumeral(m);
    NumericLiteralDecimal(n);
    var s := Decimal(n);
    if n < 0 {
      assert s == "-" + NatDecimal(m);
    }
    TrimNumeral(s);
  }

  // ---------------------------------------------------------------------------
  // Sequences
  // ---------------------------------------------------------------------------

  /** `parts.join(sep)`. */
  function Join(parts: seq<string>, sep: string): string {
    if parts == [] then ""
    else if |parts| == 1 then parts[0]
    else parts[0] + sep + Join(parts[1..], sep)
  }

  /** A join with a non-empty separator is empty exactly when there is at most
      one part and that part is empty. */
  lemma {:induction false} JoinEmpty(parts: seq<string>, sep: string)
    requires sep != ""
    ensures Join(parts, sep) == "" <==> parts == [] || parts == [""]
  {
    if |parts| > 1 {
      assert |parts[0] + sep + Join(parts[1..], sep)| >= |sep|;
    }
  }

  /** `Array.prototype.join` on values: `undefined` and `null` become empty. */
  function JoinValues(vs: seq<Value>, sep: string): string {
    Join(seq(|vs|, i requires 0 <= i < |vs| =>
      if vs[i].Undefined? || vs[i].Null? then "" else ToString(vs[i])), sep)
  }

  /** `s.filter(p)`. */
  function Filter<T>(s: seq<T>, p: T -> bool): (r: seq<T>)
    ensures |r| <= |s|
    ensures forall i :: 0 <= i < |r| ==> p(r[i])
  {
    if s == [] then [] else (if p(s[0]) then [s[0]] else []) + Filter(s[1..], p)
  }

  /** The filter keeps exactly the elements that pass the test. */
  lemma {:induction false} FilterMembers<T>(s: seq<T>, p: T -> bool)
    ensures forall x :: x in Filter(s, p) <==> x in s && p(x)
  {
    if s != [] {
      FilterMembers(s[1..], p);
      assert s == [s[0]] + s[1..];
    }
  }

  /** Filtering keeps the order of the input: it distributes over concatenation. */
  lemma {:induction false} FilterAppend<T>(a: seq<T>, b: seq<T>, p: T -> bool)
    ensures Filter(a + b, p) == Filter(a, p) + Filter(b, p)
  {
    if a != [] {
      var head := if p(a[0]) then [a[0]] else [];
      assert (a + b)[0] == a[0] && (a + b)[1..] == a[1..] + b;
      FilterAppend(a[1..], b, p);
      assert Filter(a + b, p) == head + (Filter(a[1..], p) + Filter(b, p));
      assert head + (Filter(a[1..], p) + Filter(b, p)) == (head + Filter(a[1..], p)) + Filter(b, p);
    } else {
      assert a + b == b;
    }
  }

  /** A filter and its complement split the input between them. */
  lemma {:induction false} FilterSplit<T>(s: seq<T>, p: T -> bool, q: T -> bool)
    requires forall x :: q(x) <==> !p(x)
    ensures |Filter(s, p)| + |Filter(s, q)| == |s|
  {
    if s != [] {
      FilterSplit(s[1..], p, q);
    }
  }

  /** `s.map(f)`. */
  function Map<A, B>(s: seq<A>, f: A -> B): (r: seq<B>)
    ensures |r| == |s|
  {
    seq(|s|, i requires 0 <= i < |s| => f(s[i]))
  }

  /** What `map` yields from a member is among its results... */
  lemma MapMember<A, B>(s: seq<A>, f: A -> B, x: A)
    requires x in s
    ensures f(x) in Map(s, f)
  {
    var i :| 0 <= i < |s| && s[i] == x;
    assert Map(s, f)[i] == f(x);
  }

  /** ...and every result comes from a member. */
  lemma MapPreimage<A, B>(s: seq<A>, f: A -> B, y: B)
    requires y in Map(s, f)
    ensures exists x :: x in s && f(x) == y
  {
    var i :| 0 <= i < |s| && Map(s, f)[i] == y;
    assert s[i] in s;
  }

  lemma MapAppend<A, B>(a: seq<A>, b: seq<A>, f: A -> B)
    ensures Map(a + b, f) == Map(a, f) + Map(b, f)
  {
  }

  // ---------------------------------------------------------------------------
  // s.replace(/<[^>]*>/g, '')
  // ---------------------------------------------------------------------------

  /** The index of the first `c` in `s`. */
  function IndexOf(s: string, c: char): (r: Option<nat>)
    ensures r.Some? ==> r.value < |s| && s[r.value] == c
    ensures r.Some? ==> forall j :: 0 <= j < r.value ==> s[j] != c
    ensures r.None? ==> forall j :: 0 <= j < |s| ==> s[j] != c
  {
    if s == [] then None
    else if s[0] == c then Some(0)
    else match IndexOf(s[1..], c)
      case Some(k) => Some(k + 1)
      case None => None
  }

  /** Removes every `<` together with the text up to and including the next
      `>`; a `<` with no `>` after it, and everything after it, stays. */
  function StripTags(s: string): string
    decreases |s|
  {
    if s == [] then []
    else if s[0] == '<' then
      match IndexOf(s, '>')
      case Some(j) => StripTags(s[j + 1..])
      case None => s
    else [s[0]] + StripTags(s[1..])
  }

  /** No `<` is followed, anywhere later, by a `>`: no tag is left to strip. */
  ghost predicate TagFree(s: string) {
    forall i, j :: 0 <= i < j < |s| && s[i] == '<' ==> s[j] != '>'
  }

  lemma {:induction false} StripTagsTagFree(s: string)
    ensures TagFree(StripTags(s))
    decreases |s|
  {
    if s != [] {
      if s[0] == '<' {
        match IndexOf(s, '>')
        case Some(j) => StripTagsTagFree(s[j + 1..]);
        case None =>
      } else {
        StripTagsTagFree(s[1..]);
      }
    }
  }

  lemma {:induction false} StripTagsKeepsTagFree(s: string)
    requires TagFree(s)
    ensures StripTags(s) == s
    decreases |s|
  {
    if s != [] {
      assert TagFree(s[1..]) by {
        forall i, j | 0 <= i < j < |s[1..]| && s[1..][i] == '<'
          ensures s[1..][j] != '>'
        {
          assert s[i + 1] == '<';
        }
      }
      if s[0] == '<' {
        assert IndexOf(s, '>').None?;
      } else {
        StripTagsKeepsTagFree(s[1..]);
      }
    }
  }

  /** Stripping twice is stripping once. */
  lemma StripTagsIdempotent(s: string)
    ensures StripTags(StripTags(s)) == StripTags(s)
  {
    StripTagsTagFree(s);
    StripTagsKeepsTagFree(StripTags(s));
  }
}
