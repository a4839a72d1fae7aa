/** Python values as the automation runners see them: the scalars, lists and
    dicts that configuration documents and result records are made of, the
    exceptions the runners catch, and the few built-ins the runners apply to
    them (`dict.get`, truthiness, `str`, `str.upper`, `in` on strings). */
module Values {

  datatype Option<T> = None | Some(value: T)

  datatype Result<T, E> = Ok(value: T) | Err(error: E)

  /** A raised exception: the name of its class and its text, `str(e)`. */
  datatype Exception = Exception(typeName: string, message: string)

  /** A Python value. A dict keeps its entries in insertion order, as Python's does;
      a well-formed dict holds each key once. */
  datatype Value =
    | Str(s: string)
    | Int(i: int)
    | Bool(b: bool)
    | Null
    | List(items: seq<Value>)
    | Dict(entries: Entries)

  type Entries = seq<(string, Value)>

  /** The keys of a dict. */
  function Keys(d: Entries): set<string>
  {
    if d == [] then {} else {d[0].0} + Keys(d[1..])
  }

  lemma {:induction false} KeysAt(d: Entries, key: string)
    ensures key in Keys(d) <==> exists i :: 0 <= i < |d| && d[i].0 == key
  {
    if d != [] {
      KeysAt(d[1..], key);
      if key in Keys(d[1..]) {
        var i :| 0 <= i < |d[1..]| && d[1..][i].0 == key;
        assert d[i + 1].0 == key;
      }
      if exists i :: 0 <= i < |d| && d[i].0 == key {
        var i :| 0 <= i < |d| && d[i].0 == key;
        if i > 0 { assert d[1..][i - 1].0 == key; }
      }
    }
  }

  lemma KeysPrepend(key: string, v: Value, rest: Entries)
    ensures Keys([(key, v)] + rest) == {key} + Keys(rest)
  {
    assert ([(key, v)] + rest)[1..] == rest;
  }

  lemma {:induction false} KeysAppend(a: Entries, b: Entries)
    ensures Keys(a + b) == Keys(a) + Keys(b)
  {
    if a != [] {
      assert (a + b)[1..] == a[1..] + b;
      KeysAppend(a[1..], b);
    } else {
      assert a + b == b;
    }
  }

  /** `d.get(key, default)`: the value of the first entry with that key. */
  function Get(d: Entries, key: string, default: Value): (v: Value)
    ensures key !in Keys(d) ==> v == default
    ensures key in Keys(d) ==> (key, v) in d
  {
    if d == [] then default
    else if d[0].0 == key then d[0].1
    else Get(d[1..], key, default)
  }

  /** `d[key] = v`: overwrite the entry that has the key, or append a new one. */
  function Put(d: Entries, key: string, v: Value): (r: Entries)
    ensures Keys(r) == Keys(d) + {key}
    ensures forall default :: Get(r, key, default) == v
    ensures forall k, default :: k != key ==> Get(r, k, default) == Get(d, k, default)
  {
    if d == [] then [(key, v)]
    else if d[0].0 == key then [(key, v)] + d[1..]
    else [d[0]] + Put(d[1..], key, v)
  }

  /** Python truthiness: empty strings, zero, False, None and empty containers are false. */
  predicate Truthy(v: Value)
  {
    match v
    case Str(s) => s != ""
    case Int(i) => i != 0
    case Bool(b) => b
    case Null => false
    case List(items) => items != []
    case Dict(entries) => entries != []
  }

  /** `type(v).__name__`. */
  function TypeName(v: Value): string
  {
    match v
    case Str(_) => "str"
    case Int(_) => "int"
    case Bool(_) => "bool"
    case Null => "NoneType"
    case List(_) => "list"
    case Dict(_) => "dict"
  }

  /** The exception that `v.name(...)` raises when `v` has no such method. */
  function NoAttribute(v: Value, name: string): Exception
  {
    Exception("AttributeError", "'" + TypeName(v) + "' object has no attribute '" + name + "'")
  }

  /** The exception `time.sleep(v)` raises: a negative length is a ValueError
      and a value that is not a number a TypeError. */
  function TimeSleep(v: Value): Option<Exception>
  {
    match v
    case Int(i) => if i < 0 then Some(Exception("ValueError", "sleep length must be non-negative")) else None
    case Bool(_) => None
    case _ => Some(Exception("TypeError", "'" + TypeName(v) + "' object cannot be interpreted as an integer"))
  }

  // ---------------------------------------------------------------------------
  // Decimal rendering of integers, as str(int) and f-strings produce it.

  function DigitChar(d: nat): (c: char)
    requires d < 10
    ensures '0' <= c <= '9'
  {
    ('0' as int + d) as char
  }

  function DigitValue(c: char): nat
    requires '0' <= c <= '9'
  {
    c as int - '0' as int
  }

  predicate AllDigits(s: string)
  {
    forall i :: 0 <= i < |s| ==> '0' <= s[i] <= '9'
  }

  function Digits(n: nat): (s: string)
    ensures |s| >= 1 && AllDigits(s)
  {
    if n < 10 then [DigitChar(n)] else Digits(n / 10) + [DigitChar(n % 10)]
  }

  /** `str(i)` for an int: an optional minus sign and the digits, most significant first. */
  function Decimal(i: int): string
  {
    if i < 0 then "-" + Digits(-i) else Digits(i)
  }

  function ParseDigits(s: string): nat
    requires AllDigits(s)
  {
    if s == [] then 0 else ParseDigits(s[..|s| - 1]) * 10 + DigitValue(s[|s| - 1])
  }

  /** Reads back what Decimal writes. */
  function ParseDecimal(s: string): Option<int>
  {
    if |s| >= 2 && s[0] == '-' && AllDigits(s[1..]) then Some(-(ParseDigits(s[1..]) as int))
    else if |s| >= 1 && AllDigits(s) then Some(ParseDigits(s))
    else None
  }

  lemma {:induction false} DigitsRoundTrip(n: nat)
    ensures ParseDigits(Digits(n)) == n
  {
    if n >= 10 {
      var s := Digits(n / 10) + [DigitChar(n % 10)];
      assert s[..|s| - 1] == Digits(n / 10);
      DigitsRoundTrip(n / 10);
    }
  }

  lemma ParseNegative(d: string)
    requires |d| >= 1 && AllDigits(d)
    ensures ParseDecimal("-" + d) == Some(-(ParseDigits(d) as int))
  {
    assert ("-" + d)[1..] == d;
  }

  lemma ParseNonNegative(d: string)
    requires |d| >= 1 && AllDigits(d)
    ensures ParseDecimal(d) == Some(ParseDigits(d))
  {
    assert d[0] != '-';
  }

  lemma DecimalRoundTrip(i: int)
    ensures ParseDecimal(Decimal(i)) == Some(i)
  {
    if i < 0 {
      var n: nat := -i;
      var d := Digits(n);
      assert Decimal(i) == "-" + d;
      ParseNegative(d);
      DigitsRoundTrip(n);
      assert ParseDecimal("-" + d) == Some(i);
    } else {
      var n: nat := i;
      var d := Digits(n);
      assert Decimal(i) == d;
      ParseNonNegative(d);
      DigitsRoundTrip(n);
      assert ParseDecimal(d) == Some(i);
    }
  }

  /** Different integers render differently. */
  lemma DecimalInjective(i: int, j: int)
    requires Decimal(i) == Decimal(j)
    ensures i == j
  {
    DecimalRoundTrip(i);
    DecimalRoundTrip(j);
  }

  // ---------------------------------------------------------------------------
  // str() and repr().

  /** `str(v)`. */
  function ToStr(v: Value): string
  {
    if v.Str? then v.s else Repr(v)
  }

  /** `repr(v)`; strings are quoted with single quotes and not escaped. */
  function Repr(v: Value): string
    decreases v, 1
  {
    match v
    case Str(s) => "'" + s + "'"
    case Int(i) => Decimal(i)
    case Bool(b) => if b then "True" else "False"
    case Null => "None"
    case List(items) => "[" + ReprItems(items) + "]"
    case Dict(entries) => "{" + ReprEntries(entries) + "}"
  }

  function ReprItems(items: seq<Value>): string
    decreases items, 0
  {
    if items == [] then ""
    else Repr(items[0]) + (if |items| == 1 then "" else ", " + ReprItems(items[1..]))
  }

  function ReprEntries(entries: Entries): string
    decreases entries, 0
  {
    if entries == [] then ""
    else ReprEntry(entries[0]) + (if |entries| == 1 then "" else ", " + ReprEntries(entries[1..]))
  }

  function ReprEntry(e: (string, Value)): string
    decreases e, 0
  {
    "'" + e.0 + "': " + Repr(e.1)
  }

  // ---------------------------------------------------------------------------
  // String built-ins.

  function UpperChar(c: char): char
  {
    if 'a' <= c <= 'z' then (c as int - 32) as char else c
  }

  /** `s.upper()` on ASCII letters: a-z become A-Z, nothing else changes, and
      no lower-case ASCII letter is left. */
  function Upper(s: string): (r: string)
    ensures |r| == |s|
    ensures forall i :: 0 <= i < |s| ==>
      if 'a' <= s[i] <= 'z' then r[i] as int == s[i] as int - 32 && 'A' <= r[i] <= 'Z' else r[i] == s[i]
    ensures forall i :: 0 <= i < |r| ==> !('a' <= r[i] <= 'z')
  {
    if s == [] then [] else [UpperChar(s[0])] + Upper(s[1..])
  }

  predicate StartsWith(s: string, prefix: string)
  {
    |prefix| <= |s| && s[..|prefix|] == prefix
  }

  /** `sub in s` for two strings. */
  predicate Contains(s: string, sub: string)
    decreases |s|
  {
    StartsWith(s, sub) || (s != [] && Contains(s[1..], sub))
  }

  /** `sub` occurs in `s` starting at index i. */
  predicate OccursAt(s: string, sub: string, i: nat)
  {
    i + |sub| <= |s| && s[i..i + |sub|] == sub
  }

  lemma {:induction false} ContainsAt(s: string, sub: string)
    ensures Contains(s, sub) <==> exists i: nat :: OccursAt(s, sub, i)
  {
    if s != [] {
      ContainsAt(s[1..], sub);
      if Contains(s[1..], sub) {
        var i: nat :| OccursAt(s[1..], sub, i);
        assert s[i + 1..i + 1 + |sub|] == s[1..][i..i + |sub|];
        assert OccursAt(s, sub, i + 1);
      }
      if StartsWith(s, sub) {
        assert OccursAt(s, sub, 0);
      }
      if exists i: nat :: OccursAt(s, sub, i) {
        var i: nat :| OccursAt(s, sub, i);
        if i > 0 {
          assert s[1..][i - 1..i - 1 + |sub|] == s[i..i + |sub|];
          assert OccursAt(s[1..], sub, i - 1);
        }
      }
    } else {
      if exists i: nat :: OccursAt(s, sub, i) {
        var i: nat :| OccursAt(s, sub, i);
        assert sub == [];
      }
      if Contains(s, sub) {
        assert OccursAt(s, sub, 0);
      }
    }
  }
}
