/** The JavaScript string operations the core relies on: decimal rendering of
    integers (`n.toString()`), `padStart` with a fill character, `trim`,
    lower-casing, and the decimal parsing that inverts the rendering. */
module Text {
  import opened Base

  predicate IsDigit(c: char) {
    '0' <= c <= '9'
  }

  predicate AllDigits(s: string) {
    forall i :: 0 <= i < |s| ==> IsDigit(s[i])
  }

  function DigitChar(d: nat): (c: char)
    requires d < 10
    ensures IsDigit(c)
  {
    (48 + d) as char
  }

  function DigitValue(c: char): (d: nat)
    requires IsDigit(c)
    ensures d < 10 && DigitChar(d) == c
  {
    c as int - 48
  }

  /** `n.toString()` for a non-negative integer: decimal digits, no leading
      zero except for 0 itself. */
  function NatToString(n: nat): (s: string)
    ensures 1 <= |s| && AllDigits(s)
    ensures s[0] == '0' <==> n == 0
    decreases n
  {
    if n < 10 then [DigitChar(n)] else NatToString(n / 10) + [DigitChar(n % 10)]
  }

  /** The number a string of decimal digits denotes. */
  function DigitsValue(s: string): nat
    requires AllDigits(s)
  {
    if s == [] then 0 else DigitsValue(s[..|s| - 1]) * 10 + DigitValue(s[|s| - 1])
  }

  /** The strings `NatToString` produces: non-empty, digits only, no
      redundant leading zero. */
  predicate Canonical(s: string) {
    1 <= |s| && AllDigits(s) && (s[0] == '0' ==> |s| == 1)
  }

  /** Decimal parsing of a canonical digit string. */
  function ParseNat(s: string): (r: Option<nat>)
    ensures r.Some? <==> Canonical(s)
  {
    if Canonical(s) then Some(DigitsValue(s)) else None
  }

  lemma {:induction false} DigitsValueOfRendered(n: nat)
    ensures DigitsValue(NatToString(n)) == n
    decreases n
  {
    var s := NatToString(n);
    if n >= 10 {
      DigitsValueOfRendered(n / 10);
      assert s[..|s| - 1] == NatToString(n / 10);
    }
  }

  /** Parsing inverts rendering. */
  lemma ParseRendered(n: nat)
    ensures ParseNat(NatToString(n)) == Some(n)
  {
    DigitsValueOfRendered(n);
  }

  function Pow10(k: nat): (p: nat)
    ensures p >= 1
  {
    if k == 0 then 1 else 10 * Pow10(k - 1)
  }

  function Repeat(c: char, k: nat): (r: string)
    ensures |r| == k && forall i :: 0 <= i < k ==> r[i] == c
  {
    seq(k, _ => c)
  }

  /** `s.padStart(width, fill)` with a one-character fill: `s` itself when it
      is already `width` long or longer, otherwise `s` preceded by enough
      copies of `fill` to reach `width`. */
  function PadStart(s: string, width: nat, fill: char): (r: string)
    ensures |s| >= width ==> r == s
    ensures |s| < width ==> |r| == width
    ensures r[|r| - |s|..] == s
    ensures forall i :: 0 <= i < |r| - |s| ==> r[i] == fill
  {
    if |s| >= width then s else Repeat(fill, width - |s|) + s
  }

  /** The last `width` decimal digits of `n`, most significant first: the
      reference meaning of a zero-padded field of fixed width. */
  function FixedDigits(n: nat, width: nat): (r: string)
    ensures |r| == width && AllDigits(r)
  {
    if width == 0 then [] else FixedDigits(n / 10, width - 1) + [DigitChar(n % 10)]
  }

  lemma {:induction false} FixedDigitsOfZero(width: nat)
    ensures FixedDigits(0, width) == Repeat('0', width)
  {
    if width > 0 {
      FixedDigitsOfZero(width - 1);
    }
  }

  /** Zero-padding the rendering of a number below `10^width` to `width`
      characters yields exactly its `width` last decimal digits. */
  lemma {:induction false} PaddedIsFixed(n: nat, width: nat)
    requires 1 <= width && n < Pow10(width)
    ensures PadStart(NatToString(n), width, '0') == FixedDigits(n, width)
    decreases n
  {
    var s := NatToString(n);
    if n < 10 {
      FixedDigitsOfZero(width - 1);
    } else {
      assert width >= 2;
      assert n / 10 < Pow10(width - 1);
      PaddedIsFixed(n / 10, width - 1);
      var t := NatToString(n / 10);
      assert |t| <= width - 1;
      assert Repeat('0', width - 1 - |t|) + t + [DigitChar(n % 10)]
          == Repeat('0', width - |s|) + s;
    }
  }

  /** A fixed-width field of a number below `10^width` reads back as the number. */
  lemma {:induction false} FixedDigitsValue(n: nat, width: nat)
    requires n < Pow10(width)
    ensures DigitsValue(FixedDigits(n, width)) == n
    decreases width
  {
    if width > 0 {
      FixedDigitsValue(n / 10, width - 1);
      var r := FixedDigits(n, width);
      assert r[..|r| - 1] == FixedDigits(n / 10, width - 1);
    }
  }

  /** Dropping the leading digit of a `width + 1`-digit field leaves the
      `width`-digit field of the same number. */
  lemma {:induction false} FixedDigitsDropFirst(n: nat, width: nat)
    ensures FixedDigits(n, width + 1)[1..] == FixedDigits(n, width)
    decreases width
  {
    if width > 0 {
      FixedDigitsDropFirst(n / 10, width - 1);
    }
  }

  lemma ThreeDigitsUnfolded(n: nat)
    ensures FixedDigits(n, 3) == [DigitChar(n / 10 / 10 % 10), DigitChar(n / 10 % 10), DigitChar(n % 10)]
  {
    assert FixedDigits(n / 10 / 10, 1) == [DigitChar(n / 10 / 10 % 10)];
  }

  lemma ShiftTens(k: nat, r: nat)
    ensures (10 * k + r) / 10 == k + r / 10
    ensures (10 * k + r) % 10 == r % 10
  {
  }

  /** A three-digit field only sees the number modulo 1000. */
  lemma ThreeDigitsModulo(n: nat)
    ensures FixedDigits(n, 3) == FixedDigits(n % 1000, 3)
  {
    var q, m := n / 1000, n % 1000;
    assert n == 10 * (100 * q) + m;
    ShiftTens(100 * q, m);
    ShiftTens(10 * q, m / 10);
    ShiftTens(q, m / 10 / 10);
    ThreeDigitsUnfolded(n);
    ThreeDigitsUnfolded(m);
  }

  /** The white-space characters JavaScript's `String.prototype.trim`
      removes: the WhiteSpace and LineTerminator code points of ECMAScript. */
  predicate IsSpace(c: char) {
    || c in {' ', '\t', '\n', '\r', '\U{000B}', '\U{000C}', '\U{00A0}', '\U{1680}'}
    || c in {'\U{2028}', '\U{2029}', '\U{202F}', '\U{205F}', '\U{3000}', '\U{FEFF}'}
    || '\U{2000}' <= c <= '\U{200A}'
  }

  predicate AllSpace(s: string) {
    forall i :: 0 <= i < |s| ==> IsSpace(s[i])
  }

  /** `s.trimStart()`: a suffix of `s`, everything dropped is white space,
      and the result does not start with white space. */
  function TrimStart(s: string): (r: string)
    ensures |r| <= |s| && r == s[|s| - |r|..]
    ensures AllSpace(s[..|s| - |r|])
    ensures r == [] || !IsSpace(r[0])
  {
    if s != [] && IsSpace(s[0]) then TrimStart(s[1..]) else s
  }

  /** `s.trimEnd()`: a prefix of `s`, everything dropped is white space, and
      the result does not end with white space. */
  function TrimEnd(s: string): (r: string)
    ensures |r| <= |s| && r == s[..|r|]
    ensures AllSpace(s[|r|..])
    ensures r == [] || !IsSpace(r[|r| - 1])
  {
    if s != [] && IsSpace(s[|s| - 1]) then TrimEnd(s[..|s| - 1]) else s
  }

  /** `s.trim()`, as Mongoose's `trim: true` setter applies it. */
  function Trim(s: string): (r: string)
    ensures |r| <= |s|
    ensures r == [] || (!IsSpace(r[0]) && !IsSpace(r[|r| - 1]))
  {
    TrimEnd(TrimStart(s))
  }

  /** What `trim` removes: the result sits inside the input, between an
      all-white-space prefix and an all-white-space suffix. */
  lemma TrimIsInnerSlice(s: string) returns (before: string, after: string)
    ensures s == before + Trim(s) + after
    ensures AllSpace(before) && AllSpace(after)
  {
    before := TrimStartSplit(s);
    after := TrimEndSplit(TrimStart(s));
  }

  lemma TrimStartSplit(s: string) returns (before: string)
    ensures s == before + TrimStart(s) && AllSpace(before)
  {
    before := s[..|s| - |TrimStart(s)|];
  }

  lemma TrimEndSplit(t: string) returns (after: string)
    ensures t == TrimEnd(t) + after && AllSpace(after)
  {
    after := t[|TrimEnd(t)|..];
  }

  lemma {:induction false} TrimStartOfSpace(s: string)
    requires AllSpace(s)
    ensures TrimStart(s) == []
    decreases |s|
  {
    if s != [] {
      TrimStartOfSpace(s[1..]);
    }
  }

  /** Trimming leaves nothing exactly when the string is all white space:
      a required trimmed field rejects such input. */
  lemma TrimEmptyIffAllSpace(s: string)
    ensures Trim(s) == [] <==> AllSpace(s)
  {
    if AllSpace(s) {
      TrimStartOfSpace(s);
    }
    if Trim(s) == [] {
      var before, after := TrimIsInnerSlice(s);
      assert s == before + after;
      forall i | 0 <= i < |s|
        ensures IsSpace(s[i])
      {
        if i < |before| {
          assert s[i] == before[i];
        } else {
          assert s[i] == after[i - |before|];
        }
      }
    }
  }

  /** Trimming twice is trimming once. */
  lemma TrimIdempotent(s: string)
    ensures Trim(Trim(s)) == Trim(s)
  {
    var r := Trim(s);
    if r != [] {
      assert TrimStart(r) == r;
      assert TrimEnd(r) == r;
    }
  }

  /** ASCII case mapping of one character. */
  function LowerChar(c: char): char {
    if 'A' <= c <= 'Z' then (c as int + 32) as char else c
  }

  /** `s.toLowerCase()` restricted to the ASCII letters. */
  function Lower(s: string): (r: string)
    ensures |r| == |s|
    ensures forall i :: 0 <= i < |s| ==> r[i] == LowerChar(s[i])
  {
    seq(|s|, i requires 0 <= i < |s| => LowerChar(s[i]))
  }

  /** `s.indexOf(c)`: the first position of `c`, absent when `c` does not occur. */
  function FirstIndex(s: string, c: char): (r: Option<nat>)
    ensures r.None? <==> c !in s
    ensures r.Some? ==> r.value < |s| && s[r.value] == c && c !in s[..r.value]
  {
    if s == [] then None
    else if s[0] == c then Some(0)
    else match FirstIndex(s[1..], c)
      case None => None
      case Some(i) => assert s[..i + 1] == [s[0]] + s[1..][..i]; Some(i + 1)
  }

  /** `s.lastIndexOf(c)`: the last position of `c`, absent when `c` does not occur. */
  function LastIndex(s: string, c: char): (r: Option<nat>)
    ensures r.None? <==> c !in s
    ensures r.Some? ==> r.value < |s| && s[r.value] == c && c !in s[r.value + 1..]
  {
    if s == [] then None
    else if s[|s| - 1] == c then Some(|s| - 1)
    else match LastIndex(s[..|s| - 1], c)
      case None => None
      case Some(i) => assert s[i + 1..] == s[..|s| - 1][i + 1..] + [s[|s| - 1]]; Some(i)
  }

  /** The first `c` after a prefix free of `c` is the separator. */
  lemma FirstIndexAfter(t: string, c: char, u: string)
    requires c !in t
    ensures FirstIndex(t + [c] + u, c) == Some(|t|)
  {
    var s := t + [c] + u;
    assert s[|t|] == c;
    assert forall k :: 0 <= k < |t| ==> s[k] == t[k] != c;
    assert forall m :: |t| < m <= |s| ==> s[..m][|t|] == c;
  }

  /** The last `c` before a suffix free of `c` is the separator. */
  lemma {:induction false} LastIndexBefore(t: string, c: char, u: string)
    requires c !in u
    ensures LastIndex(t + [c] + u, c) == Some(|t|)
    decreases |u|
  {
    var s := t + [c] + u;
    if u != [] {
      var u' := u[..|u| - 1];
      assert s[|s| - 1] == u[|u| - 1];
      assert s[..|s| - 1] == t + [c] + u';
      LastIndexBefore(t, c, u');
    }
  }

  /** A rendered number contains no separator character. */
  lemma NoSeparatorInDigits(n: nat, c: char)
    requires !IsDigit(c)
    ensures c !in NatToString(n)
  {
    var s := NatToString(n);
    assert forall i :: 0 <= i < |s| ==> s[i] != c;
  }
}
