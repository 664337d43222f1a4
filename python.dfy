/** The small part of Python's runtime that the chat client relies on:
    the values a decoded JSON body (or any other argument) can be, and
    `str.isspace` / `str.strip` with no arguments. */
module Python {

  /** A Python value as the client can meet it. JSON `null` decodes to
      `None`, which is also the value of an absent optional field; a JSON
      number with a fraction or exponent decodes to a float, modelled here
      by its exact real value. */
  datatype Value =
    | Null
    | Bool(b: bool)
    | Int(i: int)
    | Float(x: real)
    | Str(s: string)
    | List(items: seq<Value>)
    | Dict(entries: map<string, Value>)

  /** `bool(v)`: the falsy values are exactly None, False, zero and the
      empty containers. */
  predicate Truthy(v: Value)
    ensures !Truthy(v) <==> v in {Null, Bool(false), Int(0), Float(0.0), Str(""), List([]), Dict(map[])}
  {
    match v
    case Null => false
    case Bool(b) => b
    case Int(i) => i != 0
    case Float(x) => x != 0.0
    case Str(s) => s != []
    case List(items) => items != []
    case Dict(entries) => entries != map[]
  }

  /** `v == n` for an int `n`: numbers compare by value, a `bool` as 0 or
      1 (it is a subclass of `int`), anything else is unequal. */
  predicate EqualsInt(v: Value, n: int)
    ensures v.Str? || v.List? || v.Dict? || v.Null? ==> !EqualsInt(v, n)
    ensures EqualsInt(v, n) && v.Bool? ==> n == 0 || n == 1
    ensures v.Int? ==> (EqualsInt(v, n) <==> v.i == n)
    ensures v.Float? ==> (EqualsInt(v, n) <==> v.x == n as real)
  {
    match v
    case Bool(b) => (if b then 1 else 0) == n
    case Int(i) => i == n
    case Float(x) => x == n as real
    case _ => false
  }

  /** The message of the `TypeError` that `v[key]` raises, for a string
      `key` and a `v` that is not a dict (CPython 3.11 wording). */
  function SubscriptTypeError(v: Value): string
    requires !v.Dict?
  {
    match v
    case Null => "'NoneType' object is not subscriptable"
    case Bool(_) => "'bool' object is not subscriptable"
    case Int(_) => "'int' object is not subscriptable"
    case Float(_) => "'float' object is not subscriptable"
    case Str(_) => "string indices must be integers, not 'str'"
    case List(_) => "list indices must be integers or slices, not str"
  }

  /** `c.isspace()` for one code point in CPython 3: the characters whose
      bidirectional class is WS, B or S, or whose category is Zs. */
  predicate IsSpace(c: char)
    ensures c as int < 0x80 ==> (IsSpace(c) <==> c in " \t\n\r\U{000B}\U{000C}\U{001C}\U{001D}\U{001E}\U{001F}")
    ensures IsSpace(c) ==> 0x09 <= c as int <= 0x3000
  {
    var n := c as int;
    || 0x09 <= n <= 0x0D
    || 0x1C <= n <= 0x20
    || n == 0x85
    || n == 0xA0
    || n == 0x1680
    || 0x2000 <= n <= 0x200A
    || n == 0x2028
    || n == 0x2029
    || n == 0x202F
    || n == 0x205F
    || n == 0x3000
  }

  /** Every character of `s` is whitespace (vacuously so for ""). */
  predicate AllSpace(s: string) {
    forall i :: 0 <= i < |s| ==> IsSpace(s[i])
  }

  /** Drops leading whitespace: the result is a suffix of `s`, everything
      dropped is whitespace, and the result does not start with whitespace. */
  function LStrip(s: string): (r: string)
    ensures |r| <= |s| && r == s[|s| - |r|..]
    ensures forall i :: 0 <= i < |s| - |r| ==> IsSpace(s[i])
    ensures r != [] ==> !IsSpace(r[0])
  {
    if s != [] && IsSpace(s[0]) then LStrip(s[1..]) else s
  }

  /** Drops trailing whitespace: the result is a prefix of `s`, everything
      dropped is whitespace, and the result does not end with whitespace. */
  function RStrip(s: string): (r: string)
    ensures |r| <= |s| && r == s[..|r|]
    ensures forall i :: |r| <= i < |s| ==> IsSpace(s[i])
    ensures r != [] ==> !IsSpace(r[|r| - 1])
  {
    if s != [] && IsSpace(s[|s| - 1]) then RStrip(s[..|s| - 1]) else s
  }

  /** `s.strip()`: whitespace removed from both ends. The result is empty
      exactly when `s` holds whitespace only, and otherwise starts and ends
      with a character that is not whitespace. */
  function Strip(s: string): (r: string)
    ensures |r| <= |s|
    ensures r == [] <==> AllSpace(s)
    ensures r != [] ==> !IsSpace(r[0]) && !IsSpace(r[|r| - 1])
  {
    var r := RStrip(LStrip(s));
    assert r == [] ==> LStrip(s) == [];
    r
  }

  /** `strip` loses no character that is not whitespace: each one keeps
      its place relative to the first one kept. */
  lemma StripKeepsNonSpace(s: string, i: nat)
    requires i < |s| && !IsSpace(s[i])
    ensures var k := |s| - |LStrip(s)|;
      k <= i < k + |Strip(s)| && Strip(s)[i - k] == s[i]
  {
    var l := LStrip(s);
    var j := i - (|s| - |l|);
    assert 0 <= j < |l| && l[j] == s[i];
    assert j < |RStrip(l)| && RStrip(l)[j] == l[j];
  }
}
