/** JavaScript values and conversions that the dashboard's components rely on:
    nullable values, the outcome of an awaited backend call, JSON scalars and
    records, truthiness, `String.prototype.includes`, and `Number`/`String`
    on decimal naturals. */
module Js {

  /** `T | null` (and `undefined`, which the dashboard treats the same way). */
  datatype Option<+T> = None | Some(value: T)

  /** The outcome of one awaited backend call: the parsed body, or a thrown error. */
  datatype Fetch<+T> = Ok(data: T) | Failed

  /** A JSON scalar as delivered by the backend. */
  datatype Value = Null | Bool(b: bool) | Num(n: real) | Str(s: string)

  /** A JSON object; a key absent from the map reads as `undefined`. */
  type Record = map<string, Value>

  /** JavaScript truthiness of a scalar (NaN is not modelled). */
  predicate IsTruthy(v: Value) {
    match v
    case Null => false
    case Bool(b) => b
    case Num(n) => n != 0.0
    case Str(s) => s != ""
  }

  /** A `string | null` used as a condition: true for a non-empty string only. */
  predicate Present(x: Option<string>) {
    x.Some? && x.value != ""
  }

  /** `item[key]`, with `undefined` read as `null`. */
  function Lookup(item: Record, key: string): (v: Value)
    ensures key !in item ==> v == Null
    ensures key in item ==> v == item[key]
  {
    if key in item then item[key] else Null
  }

  /** `sub` occurs in `s` at position `i`. */
  ghost predicate OccursAt(s: string, sub: string, i: int) {
    0 <= i && i + |sub| <= |s| && s[i..i + |sub|] == sub
  }

  /** When `sub` is not a prefix of `s`, it occurs in `s` exactly when it occurs in `s[1..]`. */
  lemma OccursInTail(s: string, sub: string)
    requires |sub| <= |s| && s[..|sub|] != sub
    ensures (exists i :: OccursAt(s, sub, i)) <==> exists j :: OccursAt(s[1..], sub, j)
  {
    var t := s[1..];
    if j :| OccursAt(t, sub, j) {
      assert s[j + 1..j + 1 + |sub|] == t[j..j + |sub|];
      assert OccursAt(s, sub, j + 1);
    }
    if i :| OccursAt(s, sub, i) {
      assert i != 0;
      assert t[i - 1..i - 1 + |sub|] == s[i..i + |sub|];
      assert OccursAt(t, sub, i - 1);
    }
  }

  /** `s.includes(sub)`. */
  function Includes(s: string, sub: string): (b: bool)
    ensures b <==> exists i :: OccursAt(s, sub, i)
    decreases |s|
  {
    if |s| < |sub| then
      false
    else if s[..|sub|] == sub then
      assert OccursAt(s, sub, 0);
      true
    else
      OccursInTail(s, sub);
      Includes(s[1..], sub)
  }

  predicate IsDigit(c: char) {
    '0' <= c <= '9'
  }

  predicate AllDigits(s: string) {
    forall i :: 0 <= i < |s| ==> IsDigit(s[i])
  }

  /** The value of a string of decimal digits, most significant first. */
  function DigitsValue(s: string): nat
    requires AllDigits(s)
  {
    if s == [] then 0 else 10 * DigitsValue(s[..|s| - 1]) + (s[|s| - 1] as int - '0' as int)
  }

  /** `Number(s)` for a string of decimal digits ("" gives 0, as in JavaScript).
      Any other string gives 0 here; JavaScript would give NaN or parse a sign,
      a fraction, an exponent, surrounding white space, a `0x`, `0b` or `0o`
      prefix, or "Infinity". */
  function NumberOf(s: string): nat {
    if AllDigits(s) then DigitsValue(s) else 0
  }

  function DigitChar(d: nat): (c: char)
    requires d < 10
    ensures IsDigit(c) && c as int - '0' as int == d
  {
    ('0' as int + d) as char
  }

  /** `String(n)` for a natural number: its shortest decimal form. */
  function NatText(n: nat): (s: string)
    ensures 1 <= |s| && AllDigits(s)
    ensures |s| > 1 ==> s[0] != '0'
    decreases n
  {
    if n < 10 then [DigitChar(n)] else NatText(n / 10) + [DigitChar(n % 10)]
  }

  /** `Number(String(n)) == n`: reading back the decimal text of a natural gives the natural. */
  lemma {:induction false} NumberOfNatText(n: nat)
    ensures NumberOf(NatText(n)) == n
  {
    var s := NatText(n);
    if n < 10 {
      assert s[..|s| - 1] == [];
      assert DigitsValue(s) == n;
    } else {
      var t := NatText(n / 10);
      assert s == t + [DigitChar(n % 10)];
      assert s[..|s| - 1] == t;
      NumberOfNatText(n / 10);
      assert DigitsValue(s) == 10 * (n / 10) + n % 10;
    }
  }

  /** The position of the first `sep` in `s`. */
  function IndexOf(s: string, sep: char): (i: nat)
    requires sep in s
    ensures i < |s| && s[i] == sep && sep !in s[..i]
  {
    if s[0] == sep then 0 else IndexOf(s[1..], sep) + 1
  }

  /** `parts.join(sep)` for a one-character separator. */
  function Join(parts: seq<string>, sep: char): string {
    if |parts| == 0 then ""
    else if |parts| == 1 then parts[0]
    else parts[0] + [sep] + Join(parts[1..], sep)
  }

  /** `s.split(sep)` for a one-character separator: the inverse of `Join`. */
  function Split(s: string, sep: char): (parts: seq<string>)
    ensures |parts| >= 1
    decreases |s|
  {
    if sep !in s then [s]
    else
      var i := IndexOf(s, sep);
      [s[..i]] + Split(s[i + 1..], sep)
  }

  /** The first separator after a separator-free prefix is the one that ends it. */
  lemma {:induction false} IndexOfAfter(p: string, sep: char, rest: string)
    requires sep !in p
    ensures IndexOf(p + [sep] + rest, sep) == |p|
  {
    var s := p + [sep] + rest;
    if p != [] {
      assert s[0] == p[0] && p[0] != sep;
      assert s[1..] == p[1..] + [sep] + rest;
      IndexOfAfter(p[1..], sep, rest);
    }
  }

  /** Splitting at a first separator peels off the separator-free prefix. */
  lemma SplitCons(p: string, sep: char, rest: string)
    requires sep !in p
    ensures Split(p + [sep] + rest, sep) == [p] + Split(rest, sep)
  {
    var s := p + [sep] + rest;
    assert s[|p|] == sep;
    IndexOfAfter(p, sep, rest);
    assert s[..|p|] == p;
    assert s[|p| + 1..] == rest;
  }

  /** Splitting a join gives the parts back when no part contains the separator. */
  lemma {:induction false} SplitJoin(parts: seq<string>, sep: char)
    requires |parts| >= 1
    requires forall k :: 0 <= k < |parts| ==> sep !in parts[k]
    ensures Split(Join(parts, sep), sep) == parts
  {
    if |parts| > 1 {
      assert sep !in parts[0];
      SplitCons(parts[0], sep, Join(parts[1..], sep));
      SplitJoin(parts[1..], sep);
      assert parts == [parts[0]] + parts[1..];
    }
  }
}
