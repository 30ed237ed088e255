/** The JavaScript string operations the application relies on. */
module Strings {

  /** The decimal digit character for `d`. */
  function DigitChar(d: nat): (c: char)
    requires d < 10
    ensures '0' <= c <= '9'
    ensures c as int - '0' as int == d
  {
    ('0' as int + d) as char
  }

  /** Numeric value of a string of decimal digits. */
  function DigitsValue(s: string): nat
    requires forall i :: 0 <= i < |s| ==> '0' <= s[i] <= '9'
  {
    if s == [] then 0
    else DigitsValue(s[..|s| - 1]) * 10 + (s[|s| - 1] as int - '0' as int)
  }

  /** Template-literal rendering `${n}` of a non-negative integer. */
  function NatToString(n: nat): (s: string)
    ensures |s| >= 1
    ensures forall i :: 0 <= i < |s| ==> '0' <= s[i] <= '9'
    ensures DigitsValue(s) == n
    ensures |s| > 1 ==> s[0] != '0'
  {
    if n < 10 then [DigitChar(n)]
    else
      var init := NatToString(n / 10);
      var s := init + [DigitChar(n % 10)];
      assert s[..|s| - 1] == init;
      s
  }

  /** `${n}` for any integer: a minus sign before the digits of a negative number. */
  function IntToString(n: int): (s: string)
    ensures |s| >= 1
    ensures n >= 0 <==> s[0] != '-'
    ensures forall i :: 0 <= i < |s| ==> s[i] == '-' || '0' <= s[i] <= '9'
  {
    if n >= 0 then NatToString(n) else "-" + NatToString(-n)
  }

  /** Distinct timestamps render as distinct strings. */
  lemma NatToStringInjective(m: nat, n: nat)
    requires NatToString(m) == NatToString(n)
    ensures m == n
  {
  }

  /** `String.prototype.toLowerCase`, restricted to the ASCII letters. */
  function LowerChar(c: char): (r: char)
    ensures !('A' <= r <= 'Z')
    ensures r == c || ('A' <= c <= 'Z' && r as int == c as int + 32)
  {
    if 'A' <= c <= 'Z' then (c as int + 32) as char else c
  }

  function ToLower(s: string): (r: string)
    ensures |r| == |s|
    ensures forall i :: 0 <= i < |s| ==> r[i] == LowerChar(s[i])
  {
    seq(|s|, i requires 0 <= i < |s| => LowerChar(s[i]))
  }

  /** Lower-casing is idempotent, so a query the caller lower-cased already is unaffected. */
  lemma ToLowerIdempotent(s: string)
    ensures ToLower(ToLower(s)) == ToLower(s)
  {
  }

  /** `s.includes(q)`: some position of `s` starts with `q`. */
  predicate Contains(s: string, q: string)
  {
    q <= s || (|s| > 0 && Contains(s[1..], q))
  }

  lemma {:induction false} ContainsWitness(s: string, q: string)
    ensures Contains(s, q) <==> exists i :: 0 <= i <= |s| - |q| && q <= s[i..]
  {
    assert s[0..] == s;
    if |s| > 0 {
      ContainsWitness(s[1..], q);
      forall i | 1 <= i <= |s| ensures s[1..][i - 1..] == s[i..] { }
      if Contains(s[1..], q) {
        var i :| 0 <= i <= |s[1..]| - |q| && q <= s[1..][i..];
        assert q <= s[i + 1..];
      }
    }
  }

  /** Every string includes the empty string, so an empty query matches everything. */
  lemma ContainsEmpty(s: string)
    ensures Contains(s, "")
  {
  }

  /** The characters `String.prototype.trim` removes: white space and line terminators. */
  predicate IsJsSpace(c: char)
  {
    c in {' ', '\t', '\n', '\r', '\U{000B}', '\U{000C}', '\U{00A0}', '\U{FEFF}',
          '\U{1680}', '\U{2000}', '\U{2001}', '\U{2002}', '\U{2003}', '\U{2004}',
          '\U{2005}', '\U{2006}', '\U{2007}', '\U{2008}', '\U{2009}', '\U{200A}',
          '\U{2028}', '\U{2029}', '\U{202F}', '\U{205F}', '\U{3000}'}
  }

  function TrimStart(s: string): (r: string)
    ensures |r| <= |s| && r == s[|s| - |r|..]
    ensures r == [] || !IsJsSpace(r[0])
    ensures AllSpace(s[..|s| - |r|])
  {
    if |s| > 0 && IsJsSpace(s[0]) then
      var r := TrimStart(s[1..]);
      assert s[..|s| - |r|] == [s[0]] + s[1..][..|s| - 1 - |r|];
      r
    else s
  }

  function TrimEnd(s: string): (r: string)
    ensures r <= s
    ensures r == [] || !IsJsSpace(r[|r| - 1])
    ensures AllSpace(s[|r|..])
  {
    if |s| > 0 && IsJsSpace(s[|s| - 1]) then
      var r := TrimEnd(s[..|s| - 1]);
      assert s[|r|..] == s[..|s| - 1][|r|..] + [s[|s| - 1]];
      r
    else s
  }

  /**
   * `s.trim()`: `s` with its leading and trailing white space removed, so
   * that what remains neither starts nor ends with white space.
   */
  function Trim(s: string): (r: string)
    ensures |r| <= |s|
    ensures r == [] || (!IsJsSpace(r[0]) && !IsJsSpace(r[|r| - 1]))
    ensures exists i, j :: 0 <= i <= j <= |s| && r == s[i..j] && AllSpace(s[..i]) && AllSpace(s[j..])
    ensures (forall i :: 0 <= i < |s| ==> !IsJsSpace(s[i])) ==> r == s
  {
    var t := TrimStart(s);
    var r := TrimEnd(t);
    CutBounds(s, t, r);
    r
  }

  /** Where `Trim` cuts `s`: after its leading and before its trailing white space. */
  lemma CutBounds(s: string, t: string, r: string)
    requires |t| <= |s| && t == s[|s| - |t|..] && AllSpace(s[..|s| - |t|])
    requires r <= t && AllSpace(t[|r|..])
    ensures var i := |s| - |t|; var j := i + |r|;
      r == s[i..j] && AllSpace(s[..i]) && AllSpace(s[j..])
  {
    SliceOfSuffix(s, |s| - |t|, |r|);
  }

  /** Cutting a suffix of `s` again is cutting `s` itself. */
  lemma SliceOfSuffix(s: string, i: nat, m: nat)
    requires i + m <= |s|
    ensures s[i..][..m] == s[i..i + m] && s[i..][m..] == s[i + m..]
  {
  }

  /** Every character of `s` is white space. */
  predicate AllSpace(s: string)
  {
    forall k :: 0 <= k < |s| ==> IsJsSpace(s[k])
  }

  /** Number of occurrences of `d` in `s`. */
  function Count(s: string, d: char): nat
  {
    if s == [] then 0 else (if s[0] == d then 1 else 0) + Count(s[1..], d)
  }

  /** `s.split(d)` for a one-character separator. */
  function Split(s: string, d: char): (parts: seq<string>)
    ensures |parts| == Count(s, d) + 1
    ensures forall k :: 0 <= k < |parts| ==> d !in parts[k]
  {
    if s == [] then [""]
    else
      var rest := Split(s[1..], d);
      if s[0] == d then [""] + rest else [[s[0]] + rest[0]] + rest[1..]
  }

  /** `parts.join(d)`. */
  function Join(parts: seq<string>, d: char): string
  {
    if parts == [] then ""
    else if |parts| == 1 then parts[0]
    else parts[0] + [d] + Join(parts[1..], d)
  }

  /** Joining the pieces of a split with the same separator gives back the string. */
  lemma {:induction false} JoinSplit(s: string, d: char)
    ensures Join(Split(s, d), d) == s
  {
    if s != [] {
      JoinSplit(s[1..], d);
      var rest := Split(s[1..], d);
      if s[0] == d {
        assert Split(s, d) == [""] + rest;
        assert ([""] + rest)[1..] == rest;
      } else if |rest| == 1 {
        assert s == [s[0]] + s[1..];
      } else {
        assert Split(s, d)[1..] == rest[1..];
        assert s == [s[0]] + s[1..];
      }
    }
  }

  /** A string without the separator splits into itself alone. */
  lemma {:induction false} SplitNoSeparator(s: string, d: char)
    requires d !in s
    ensures Split(s, d) == [s]
  {
    if s != [] {
      SplitNoSeparator(s[1..], d);
      assert s == [s[0]] + s[1..];
    }
  }

  /** Splitting `a + d + b`, where `a` holds no `d`, yields `a` followed by the pieces of `b`. */
  lemma {:induction false} SplitAtFirst(a: string, d: char, b: string)
    requires d !in a
    ensures Split(a + [d] + b, d) == [a] + Split(b, d)
  {
    if a == [] {
      assert ([] + [d] + b)[1..] == b;
    } else {
      SplitAtFirst(a[1..], d, b);
      assert (a + [d] + b)[1..] == a[1..] + [d] + b;
      assert a == [a[0]] + a[1..];
    }
  }

  /** Pieces without the separator come back from a split of their join. */
  lemma {:induction false} SplitJoin(parts: seq<string>, d: char)
    requires |parts| >= 1
    requires forall k :: 0 <= k < |parts| ==> d !in parts[k]
    ensures Split(Join(parts, d), d) == parts
  {
    if |parts| == 1 {
      SplitNoSeparator(parts[0], d);
    } else {
      SplitJoin(parts[1..], d);
      SplitAtFirst(parts[0], d, Join(parts[1..], d));
      assert parts == [parts[0]] + parts[1..];
    }
  }

  /** One step of `Split` on a string given as its first character and the rest. */
  lemma SplitCons(c: char, s: string, d: char)
    ensures Split([c] + s, d) ==
      if c == d then [""] + Split(s, d) else [[c] + Split(s, d)[0]] + Split(s, d)[1..]
  {
    assert ([c] + s)[1..] == s;
  }

  /** The inductive step of `SplitConcat`: putting one character in front. */
  lemma SplitConcatStep(c: char, a: string, d: char, b: string)
    requires Split(a + [d] + b, d) == Split(a, d) + Split(b, d)
    ensures Split([c] + (a + [d] + b), d) == Split([c] + a, d) + Split(b, d)
  {
    var w := a + [d] + b;
    var rest := Split(a, d);
    var tail := Split(b, d);
    SplitCons(c, w, d);
    SplitCons(c, a, d);
    if c != d {
      PrependToFirst(c, rest, tail);
    } else {
      assert [""] + (rest + tail) == ([""] + rest) + tail;
    }
  }

  /** Putting a character in front of the first part commutes with appending further parts. */
  lemma PrependToFirst(c: char, rest: seq<string>, tail: seq<string>)
    requires |rest| > 0
    ensures var x := rest + tail; [[c] + x[0]] + x[1..] == ([[c] + rest[0]] + rest[1..]) + tail
  {
    var x := rest + tail;
    assert x[0] == rest[0] && x[1..] == rest[1..] + tail;
  }

  /** Splitting `a + d + b` splits `a` and `b` apart. */
  lemma {:induction false} SplitConcat(a: string, d: char, b: string)
    ensures Split(a + [d] + b, d) == Split(a, d) + Split(b, d)
  {
    if a == [] {
      assert a + [d] + b == [d] + b;
      SplitCons(d, b, d);
    } else {
      SplitConcat(a[1..], d, b);
      SplitConcatStep(a[0], a[1..], d, b);
      assert a + [d] + b == [a[0]] + (a[1..] + [d] + b);
      assert a == [a[0]] + a[1..];
    }
  }

  /** Lower-case hexadecimal digit, as `Buffer.toString("hex")` writes it. */
  function HexDigit(d: nat): (c: char)
    requires d < 16
    ensures '0' <= c <= '9' || 'a' <= c <= 'f'
    ensures HexValue(c) == d
  {
    "0123456789abcdef"[d]
  }

  /** The value a lower-case hexadecimal digit stands for. */
  function HexValue(c: char): nat
  {
    if '0' <= c <= '9' then c as int - '0' as int
    else if 'a' <= c <= 'f' then c as int - 'a' as int + 10
    else 0
  }

  /** One byte in hexadecimal: its high nibble, then its low one, which read back as the byte. */
  function HexByte(b: bv8): (p: string)
    ensures |p| == 2 && HexValue(p[0]) * 16 + HexValue(p[1]) == b as nat
  {
    [HexDigit(b as nat / 16), HexDigit(b as nat % 16)]
  }

  /** `buffer.toString("hex")`: the bytes in order, two lower-case digits each. */
  function Hex(bytes: seq<bv8>): (r: string)
    ensures |r| == 2 * |bytes|
    ensures forall i :: 0 <= i < |r| ==> '0' <= r[i] <= '9' || 'a' <= r[i] <= 'f'
    ensures forall i :: 0 <= i < |bytes| ==> r[2 * i..2 * i + 2] == HexByte(bytes[i])
  {
    if bytes == [] then ""
    else
      var rest := Hex(bytes[1..]);
      HexStep(bytes, rest);
      HexByte(bytes[0]) + rest
  }

  /** The inductive step of `Hex`: the first byte's pair in front of the pairs of the others. */
  lemma HexStep(bytes: seq<bv8>, rest: string)
    requires |bytes| > 0 && |rest| == 2 * (|bytes| - 1)
    requires forall i :: 0 <= i < |bytes| - 1 ==> rest[2 * i..2 * i + 2] == HexByte(bytes[1..][i])
    ensures forall i :: 0 <= i < |bytes| ==> (HexByte(bytes[0]) + rest)[2 * i..2 * i + 2] == HexByte(bytes[i])
  {
    var r := HexByte(bytes[0]) + rest;
    forall i | 1 <= i < |bytes| ensures r[2 * i..2 * i + 2] == HexByte(bytes[i]) {
      assert r[2 * i..2 * i + 2] == rest[2 * i - 2..2 * i];
      assert bytes[i] == bytes[1..][i - 1];
    }
  }

}
