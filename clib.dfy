/**
 * Models of the C library routines the firmware relies on: bounded copies
 * (strlcpy, strlcat, snprintf into a fixed buffer), decimal and hexadecimal
 * printing, ASCII lower-casing and strncmp.
 *
 * A model `string` is the content of a C string; its terminating NUL is
 * implicit.  A buffer of `size` bytes therefore holds at most size-1
 * characters.
 */
module CLib {

  type uint8 = x: int | 0 <= x < 256
  type uint16 = x: int | 0 <= x < 0x1_0000

  datatype Option<+T> = None | Some(value: T)

  function Min(a: int, b: int): int { if a <= b then a else b }

  /** What strlcpy(dst, s, size) or snprintf(dst, size, "%s", s) leaves in dst. */
  function Fit(s: string, size: nat): (r: string)
    ensures |r| == if size == 0 then 0 else Min(|s|, size - 1)
    ensures r <= s
  {
    if size == 0 then [] else if |s| < size then s else s[..size - 1]
  }

  /** strlcat(dst, src, size): appends as much of src as leaves room for the terminator. */
  function Strlcat(dst: string, src: string, size: nat): (r: string)
    ensures dst <= r
  {
    if size <= |dst| then dst else dst + Fit(src, size - |dst|)
  }

  /** Successive strlcat calls of each part, in order. */
  function StrlcatAll(dst: string, parts: seq<string>, size: nat): string
    decreases |parts|
  {
    if parts == [] then dst else StrlcatAll(Strlcat(dst, parts[0], size), parts[1..], size)
  }

  function Concat(parts: seq<string>): string
    decreases |parts|
  {
    if parts == [] then [] else parts[0] + Concat(parts[1..])
  }

  lemma ConcatOne(s: string)
    ensures Concat([s]) == s
  {
    assert [s][1..] == [];
  }

  lemma ConcatFour(a: string, b: string, c: string, d: string)
    ensures Concat([a, b, c, d]) == a + b + c + d
  {
    var parts := [a, b, c, d];
    assert parts[1..] == [b, c, d] && parts[1..][1..] == [c, d] && parts[1..][1..][1..] == [d];
    ConcatOne(d);
    assert Concat([c, d]) == c + d;
    assert Concat([b, c, d]) == b + (c + d);
    AppendAssoc(b, c, d);
    AppendAssoc(a, b + c, d);
    AppendAssoc(a, b, c);
  }

  lemma AppendAssoc<T>(a: seq<T>, b: seq<T>, c: seq<T>)
    ensures (a + b) + c == a + (b + c)
  {
  }

  lemma PrefixCancel<T>(p: seq<T>, x: seq<T>, y: seq<T>)
    requires p + x == p + y
    ensures x == y
  {
    assert x == (p + x)[|p|..];
    assert y == (p + y)[|p|..];
  }

  lemma AppendStep<T>(start: seq<T>, prefix: seq<T>, a: seq<T>, b: seq<T>)
    ensures start + prefix + a + b == start + (prefix + a + b)
  {
    AppendAssoc(start, prefix, a);
    AppendAssoc(start, prefix + a, b);
  }

  /** Appending to a bounded copy is the bounded copy of the concatenation. */
  lemma StrlcatFit(a: string, b: string, size: nat)
    ensures Strlcat(Fit(a, size), b, size) == Fit(a + b, size)
  {
    if size != 0 && |a| >= size {
      assert Fit(a, size) == (a + b)[..size - 1];
    } else if size != 0 {
      if |a + b| < size {
        assert Fit(b, size - |a|) == b;
      } else {
        assert Fit(b, size - |a|) == b[..size - 1 - |a|];
        assert (a + b)[..size - 1] == a + b[..size - 1 - |a|];
      }
    }
  }

  /** A chain of strlcat calls after strlcpy builds the bounded copy of the whole text. */
  lemma {:induction false} StrlcatAllFit(a: string, parts: seq<string>, size: nat)
    ensures StrlcatAll(Fit(a, size), parts, size) == Fit(a + Concat(parts), size)
    decreases |parts|
  {
    if parts != [] {
      StrlcatFit(a, parts[0], size);
      StrlcatAllFit(a + parts[0], parts[1..], size);
      AppendAssoc(a, parts[0], Concat(parts[1..]));
    }
  }

  /** One strlcat onto a bounded copy of p + xs, when xs grows by x. */
  lemma StrlcatFitStep(p: string, xs: string, x: string, ys: string, size: nat)
    requires ys == xs + x
    ensures Strlcat(Fit(p + xs, size), x, size) == Fit(p + ys, size)
  {
    StrlcatFit(p + xs, x, size);
    assert p + ys == (p + xs) + x;
  }

  /** Successive strlcat calls of two and of four parts. */
  lemma StrlcatAllTwo(dst: string, a: string, b: string, size: nat)
    ensures StrlcatAll(dst, [a, b], size) == Strlcat(Strlcat(dst, a, size), b, size)
  {
    var s1 := Strlcat(dst, a, size);
    assert [a, b][0] == a && [a, b][1..] == [b];
    assert StrlcatAll(dst, [a, b], size) == StrlcatAll(s1, [b], size);
    assert [b][0] == b && [b][1..] == [];
    assert StrlcatAll(s1, [b], size) == StrlcatAll(Strlcat(s1, b, size), [], size);
  }

  lemma StrlcatAllFour(dst: string, a: string, b: string, c: string, e: string, size: nat)
    ensures StrlcatAll(dst, [a, b, c, e], size) == Strlcat(Strlcat(Strlcat(Strlcat(dst, a, size), b, size), c, size), e, size)
  {
    var p := [a, b, c, e];
    var s1 := Strlcat(dst, a, size);
    assert p[0] == a && p[1..] == [b, c, e];
    assert StrlcatAll(dst, p, size) == StrlcatAll(s1, [b, c, e], size);
    assert [b, c, e][0] == b && [b, c, e][1..] == [c, e];
    assert StrlcatAll(s1, [b, c, e], size) == StrlcatAll(Strlcat(s1, b, size), [c, e], size);
    StrlcatAllTwo(Strlcat(Strlcat(dst, a, size), b, size), c, e, size);
  }

  /** strlcat never truncates when the result fits. */
  lemma StrlcatFits(dst: string, src: string, size: nat)
    requires |dst| + |src| < size
    ensures Strlcat(dst, src, size) == dst + src
  {
  }

  // ---------------------------------------------------------------------
  // C strings inside buffers

  /** strlen: the index of the first NUL, or the whole sequence if there is none. */
  function CLen(s: seq<char>): (n: nat)
    ensures n <= |s|
    ensures forall i :: 0 <= i < n ==> s[i] != '\0'
    ensures n < |s| ==> s[n] == '\0'
    decreases |s|
  {
    if s == [] || s[0] == '\0' then 0 else 1 + CLen(s[1..])
  }

  /** The C string stored at the start of a buffer. */
  function CStr(s: seq<char>): string { s[..CLen(s)] }

  predicate NulFree(s: string) { forall i :: 0 <= i < |s| ==> s[i] != '\0' }

  /** The character at index i of a C string; past its end it reads as NUL. */
  function At(s: string, i: nat): char { if i < |s| then s[i] else '\0' }

  /** strncmp(a, b, n) == 0. */
  predicate StrnEq(a: string, b: string, n: nat)
    decreases n
  {
    n == 0 || (At(a, 0) == At(b, 0) && (At(a, 0) == '\0' || StrnEq(a[1..], b[1..], n - 1)))
  }

  /** For NUL-free strings, strncmp(a, b, |b|) == 0 holds exactly when b is a prefix of a. */
  lemma {:induction false} StrnEqPrefix(a: string, b: string)
    requires NulFree(a) && NulFree(b)
    ensures StrnEq(a, b, |b|) <==> b <= a
    decreases |b|
  {
    if |b| > 0 {
      if |a| == 0 {
        assert At(a, 0) == '\0' != b[0] == At(b, 0);
      } else {
        assert At(a, 0) == a[0] && At(b, 0) == b[0];
        StrnEqPrefix(a[1..], b[1..]);
        if b <= a {
          assert b[1..] <= a[1..];
        }
      }
    }
  }

  // ---------------------------------------------------------------------
  // Characters

  /** tolower in the C locale. */
  function ToLower(c: char): char
  {
    if 'A' <= c <= 'Z' then (c as int + 32) as char else c
  }

  function Byte(c: char): uint8 { c as int % 256 }

  // ---------------------------------------------------------------------
  // Numbers printed with %d and %02x

  function Digit(d: nat): char
    requires d < 10
  {
    ('0' as int + d) as char
  }

  predicate IsDigit(c: char) { '0' <= c <= '9' }

  predicate AllDigits(s: string) { forall i :: 0 <= i < |s| ==> IsDigit(s[i]) }

  /** printf("%d", n) for a non-negative n. */
  function DecStr(n: nat): (r: string)
    ensures |r| >= 1 && AllDigits(r)
    decreases n
  {
    if n < 10 then [Digit(n)] else DecStr(n / 10) + [Digit(n % 10)]
  }

  function DigitValue(c: char): nat
    requires IsDigit(c)
  {
    c as int - '0' as int
  }

  /** atoi on a string of digits: the inverse of DecStr. */
  function ParseDec(s: string): nat
    requires AllDigits(s)
    decreases |s|
  {
    if s == [] then 0 else ParseDec(s[..|s| - 1]) * 10 + DigitValue(s[|s| - 1])
  }

  lemma {:induction false} ParseDecStr(n: nat)
    ensures ParseDec(DecStr(n)) == n
    decreases n
  {
    if n >= 10 {
      var s := DecStr(n);
      assert s[..|s| - 1] == DecStr(n / 10);
      ParseDecStr(n / 10);
    }
  }

  lemma DecStrInjective(m: nat, n: nat)
    requires DecStr(m) == DecStr(n)
    ensures m == n
  {
    ParseDecStr(m);
    ParseDecStr(n);
  }

  /** One digit for every number below ten. */
  lemma DecStrSmall(n: nat)
    requires n < 10
    ensures DecStr(n) == [Digit(n)]
  {
  }

  lemma DecStrLength(n: nat)
    requires n < 100
    ensures |DecStr(n)| <= 2
  {
  }

  // ---------------------------------------------------------------------
  // Powers of two and division

  function Pow2(e: nat): (r: nat)
    ensures r >= 1
  {
    if e == 0 then 1 else 2 * Pow2(e - 1)
  }

  lemma Pow2Sixteen()
    ensures Pow2(16) == 0x1_0000
  {
    assert Pow2(4) == 16;
    assert Pow2(8) == 256;
    assert Pow2(12) == 4096;
  }

  lemma MulSmall(d: int, x: int)
    requires d > 0 && -d < d * x < d
    ensures x == 0
  {
  }

  lemma DivUnique(n: nat, d: nat, t: nat, s: nat)
    requires d > 0 && n == d * t + s && s < d
    ensures n / d == t
  {
    var q, r := n / d, n % d;
    assert d * q + r == d * t + s;
    assert d * (q - t) == s - r;
    MulSmall(d, q - t);
  }

  /** Dividing by 2a is dividing by a, then by 2. */
  lemma DivTwice(n: nat, a: nat)
    requires a > 0
    ensures n / (2 * a) == (n / a) / 2
  {
    var q, r := n / a, n % a;
    assert n == a * q + r;
    var q2, r2 := q / 2, q % 2;
    assert q == 2 * q2 + r2;
    assert n == (2 * a) * q2 + (a * r2 + r);
    DivUnique(n, 2 * a, q2, a * r2 + r);
  }

  /** The bits above position e, doubled, plus bit e, are the bits from position e up. */
  lemma HalfStep(n: nat, a: nat)
    requires a > 0
    ensures 2 * (n / (2 * a)) + (if (n / a) % 2 == 1 then 1 else 0) == n / a
  {
    DivTwice(n, a);
  }

  function HexDigit(d: nat): char
    requires d < 16
  {
    if d < 10 then Digit(d) else ('a' as int + d - 10) as char
  }

  /** printf("%02x", b). */
  function Hex2(b: uint8): string
  {
    [HexDigit(b / 16), HexDigit(b % 16)]
  }

  /** Index of the first '.' in s (|s| when there is none). */
  function DotIndex(s: string): nat
    decreases |s|
  {
    if s == [] || s[0] == '.' then 0 else 1 + DotIndex(s[1..])
  }

  lemma {:induction false} DotAfterDigits(x: string, f: string)
    requires AllDigits(x)
    ensures DotIndex(x + "." + f) == |x|
    decreases |x|
  {
    if x != [] {
      assert (x + "." + f)[1..] == x[1..] + "." + f;
      DotAfterDigits(x[1..], f);
    }
  }

  /** Two strings of digits each followed by a dot split the same way. */
  lemma DigitsDotSplit(x: string, f: string, y: string, g: string)
    requires AllDigits(x) && AllDigits(y)
    requires x + "." + f == y + "." + g
    ensures x == y && f == g
  {
    var l := x + "." + f;
    DotAfterDigits(x, f);
    DotAfterDigits(y, g);
    assert x == l[..|x|] && y == l[..|y|];
    assert f == l[|x| + 1..] && g == l[|y| + 1..];
  }
}
