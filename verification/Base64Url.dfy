/** Base64 with the URL and filename safe alphabet, unpadded: section 5 of RFC 4648. */
module Base64Url {
  type Byte = b: int | 0 <= b < 256
  type Sextet = d: int | 0 <= d < 64

  function Digit(d: Sextet): (c: char)
    ensures IsDigit(c)
  {
    if d < 26 then ('A' as int + d) as char
    else if d < 52 then ('a' as int + d - 26) as char
    else if d < 62 then ('0' as int + d - 52) as char
    else if d == 62 then '-'
    else '_'
  }

  predicate IsDigit(c: char) {
    'A' <= c <= 'Z' || 'a' <= c <= 'z' || '0' <= c <= '9' || c == '-' || c == '_'
  }

  function Value(c: char): Sextet
    requires IsDigit(c)
  {
    if 'A' <= c <= 'Z' then c as int - 'A' as int
    else if 'a' <= c <= 'z' then c as int - 'a' as int + 26
    else if '0' <= c <= '9' then c as int - '0' as int + 52
    else if c == '-' then 62
    else 63
  }

  predicate AllDigits(s: string) {
    forall i :: 0 <= i < |s| ==> IsDigit(s[i])
  }

  /** Bytes regrouped into six-bit digits; a short last group is filled up with zero bits. */
  function Sextets(b: seq<Byte>): (d: seq<Sextet>)
    ensures d == [] <==> b == []
  {
    if b == [] then []
    else if |b| == 1 then [b[0] / 4, b[0] % 4 * 16]
    else if |b| == 2 then [b[0] / 4, b[0] % 4 * 16 + b[1] / 16, b[1] % 16 * 4]
    else [b[0] / 4, b[0] % 4 * 16 + b[1] / 16, b[1] % 16 * 4 + b[2] / 64, b[2] % 64] + Sextets(b[3..])
  }

  /** The lenient inverse of the runtime: leftover bits of a short last group are dropped, whatever
      they are, and so is a lone last digit. */
  function Bytes(d: seq<Sextet>): seq<Byte> {
    if |d| < 2 then []
    else if |d| == 2 then [d[0] as int * 4 + d[1] / 16]
    else if |d| == 3 then [d[0] as int * 4 + d[1] / 16, d[1] as int % 16 * 16 + d[2] / 4]
    else [d[0] as int * 4 + d[1] / 16, d[1] as int % 16 * 16 + d[2] / 4, d[2] as int % 4 * 64 + d[3]] + Bytes(d[4..])
  }

  function Encode(b: seq<Byte>): (s: string)
    ensures AllDigits(s)
    ensures s == "" <==> b == []
  {
    var d := Sextets(b);
    seq(|d|, i requires 0 <= i < |d| => Digit(d[i]))
  }

  function Values(s: string): (d: seq<Sextet>)
    requires AllDigits(s)
    ensures |d| == |s| && forall i :: 0 <= i < |s| ==> d[i] == Value(s[i])
  {
    seq(|s|, i requires 0 <= i < |s| && IsDigit(s[i]) => Value(s[i]))
  }

  function Decode(s: string): seq<Byte>
    requires AllDigits(s)
  {
    Bytes(Values(s))
  }

  lemma DigitValue(d: Sextet)
    ensures Value(Digit(d)) == d
  {
  }

  /** Eight bits three times are six bits four times. */
  lemma Regroup(b0: Byte, b1: Byte, b2: Byte)
    ensures b0 / 4 * 4 + (b0 % 4 * 16 + b1 / 16) / 16 == b0
    ensures (b0 % 4 * 16 + b1 / 16) % 16 * 16 + (b1 % 16 * 4 + b2 / 64) / 4 == b1
    ensures (b1 % 16 * 4 + b2 / 64) % 4 * 64 + b2 % 64 == b2
  {
  }

  lemma {:induction false} BytesOfSextets(b: seq<Byte>)
    ensures Bytes(Sextets(b)) == b
  {
    if |b| == 1 {
      Regroup(b[0], 0, 0);
    } else if |b| == 2 {
      Regroup(b[0], b[1], 0);
    } else if |b| > 2 {
      Regroup(b[0], b[1], b[2]);
      BytesOfSextets(b[3..]);
      assert Sextets(b)[4..] == Sextets(b[3..]);
    }
  }

  /** Decoding undoes encoding, for every byte string. */
  lemma DecodeEncode(b: seq<Byte>)
    ensures Decode(Encode(b)) == b
  {
    var d, s := Sextets(b), Encode(b);
    var back := Values(s);
    forall i | 0 <= i < |d|
      ensures back[i] == d[i]
    {
      DigitValue(d[i]);
    }
    assert back == d;
    BytesOfSextets(b);
  }

  // ---------------------------------------------------------------- how lenient decoding is

  /** The digits that decoding looks at: all but a lone last one. */
  function Seen(d: seq<Sextet>): seq<Sextet> {
    if |d| % 4 == 1 then d[..|d| - 1] else d
  }

  /** The bits it takes from the last of `n` digits: two or four of a short last group, else all six. */
  function KeptBits(n: nat, d: Sextet): int {
    if n % 4 == 2 then d / 16 else if n % 4 == 3 then d / 4 else d
  }

  predicate SameSeen(x: seq<Sextet>, y: seq<Sextet>) {
    |x| == |y| && (forall i :: 0 <= i < |x| - 1 ==> x[i] == y[i]) &&
    (x != [] ==> KeptBits(|x|, x[|x| - 1]) == KeptBits(|y|, y[|y| - 1]))
  }

  lemma {:induction false} BytesLength(d: seq<Sextet>)
    ensures |Bytes(d)| == |d| * 3 / 4
    decreases |d|
  {
    if |d| >= 4 {
      BytesLength(d[4..]);
    }
  }

  /** Three bytes determine their four digits, and fewer what is kept of fewer. */
  lemma GroupDigits(d0: Sextet, d1: Sextet, d2: Sextet, d3: Sextet, e0: Sextet, e1: Sextet, e2: Sextet, e3: Sextet)
    requires d0 as int * 4 + d1 / 16 == e0 as int * 4 + e1 / 16
    ensures d0 == e0 && d1 / 16 == e1 / 16
    ensures d1 as int % 16 * 16 + d2 / 4 == e1 as int % 16 * 16 + e2 / 4 ==>
      d1 == e1 && d2 / 4 == e2 / 4 && (d2 as int % 4 * 64 + d3 == e2 as int % 4 * 64 + e3 ==> d2 == e2 && d3 == e3)
  {
  }

  lemma ShortDecodeAlike(x: seq<Sextet>, y: seq<Sextet>)
    requires |x| < 4 && |y| < 4
    ensures Bytes(x) == Bytes(y) <==> SameSeen(Seen(x), Seen(y))
  {
    BytesLength(x);
    BytesLength(y);
    if |x| == |y| && |x| >= 2 {
      assert Bytes(x)[0] == x[0] as int * 4 + x[1] / 16 && Bytes(y)[0] == y[0] as int * 4 + y[1] / 16;
      if Bytes(x)[0] == Bytes(y)[0] {
        GroupDigits(x[0], x[1], if |x| == 3 then x[2] else 0, 0, y[0], y[1], if |y| == 3 then y[2] else 0, 0);
      }
    }
  }

  lemma AgreeBeyondFour(u: seq<Sextet>, v: seq<Sextet>, n: nat)
    requires 4 <= n <= |u| && n <= |v|
    ensures (forall i :: 0 <= i < n ==> u[i] == v[i]) <==>
            u[..4] == v[..4] && (forall i :: 0 <= i < n - 4 ==> u[4..][i] == v[4..][i])
  {
    if u[..4] == v[..4] && (forall i :: 0 <= i < n - 4 ==> u[4..][i] == v[4..][i]) {
      forall i | 0 <= i < n
        ensures u[i] == v[i]
      {
        assert if i < 4 then u[i] == u[..4][i] && v[i] == v[..4][i] else u[i] == u[4..][i - 4] && v[i] == v[4..][i - 4];
      }
    }
  }

  lemma SameSeenFour(u: seq<Sextet>, v: seq<Sextet>)
    requires |u| == |v| == 4
    ensures SameSeen(u, v) <==> u == v
  {
    assert u == [u[0], u[1], u[2], u[3]] && v == [v[0], v[1], v[2], v[3]];
  }

  lemma SameSeenSplit(u: seq<Sextet>, v: seq<Sextet>)
    requires |u| >= 4 && |v| >= 4
    ensures SameSeen(u, v) <==> u[..4] == v[..4] && SameSeen(u[4..], v[4..])
  {
    if |u| == |v| == 4 {
      SameSeenFour(u, v);
      assert u[..4] == u && v[..4] == v;
    } else if |u| == |v| {
      AgreeBeyondFour(u, v, |u| - 1);
      assert u[4..][|u| - 5] == u[|u| - 1] && v[4..][|v| - 5] == v[|v| - 1];
    }
  }

  lemma SeenSplit(x: seq<Sextet>)
    requires |x| >= 4
    ensures |Seen(x)| >= 4 && Seen(x)[..4] == x[..4] && Seen(x)[4..] == Seen(x[4..])
  {
  }

  lemma SeenTail(x: seq<Sextet>, y: seq<Sextet>)
    requires |x| >= 4 && |y| >= 4
    ensures SameSeen(Seen(x), Seen(y)) <==> x[..4] == y[..4] && SameSeen(Seen(x[4..]), Seen(y[4..]))
  {
    SeenSplit(x);
    SeenSplit(y);
    SameSeenSplit(Seen(x), Seen(y));
  }

  lemma SameHead(x: seq<Sextet>, y: seq<Sextet>, p: seq<Byte>, q: seq<Byte>)
    requires |x| >= 4 && |y| >= 4 && |p| >= 3 && |q| >= 3
    requires p[0] == x[0] as int * 4 + x[1] / 16 && q[0] == y[0] as int * 4 + y[1] / 16
    requires p[1] == x[1] as int % 16 * 16 + x[2] / 4 && q[1] == y[1] as int % 16 * 16 + y[2] / 4
    requires p[2] == x[2] as int % 4 * 64 + x[3] && q[2] == y[2] as int % 4 * 64 + y[3]
    ensures x[..4] == y[..4] <==> p[0] == q[0] && p[1] == q[1] && p[2] == q[2]
  {
    assert x[..4] == [x[0], x[1], x[2], x[3]] && y[..4] == [y[0], y[1], y[2], y[3]];
    if p[0] == q[0] {
      GroupDigits(x[0], x[1], x[2], x[3], y[0], y[1], y[2], y[3]);
    }
  }

  lemma BytesTail(x: seq<Sextet>, y: seq<Sextet>)
    requires |x| >= 4 && |y| >= 4
    ensures Bytes(x) == Bytes(y) <==> x[..4] == y[..4] && Bytes(x[4..]) == Bytes(y[4..])
  {
    var p, q := Bytes(x), Bytes(y);
    SameHead(x, y, p, q);
    assert p[3..] == Bytes(x[4..]) && q[3..] == Bytes(y[4..]);
    assert p == [p[0], p[1], p[2]] + p[3..] && q == [q[0], q[1], q[2]] + q[3..];
  }

  /** Two digit strings decode alike exactly when they agree up to the leftover bits of the last digit
      of a short group, a lone last digit aside. */
  lemma {:induction false} SextetsDecodeAlike(x: seq<Sextet>, y: seq<Sextet>)
    ensures Bytes(x) == Bytes(y) <==> SameSeen(Seen(x), Seen(y))
    decreases |x|
  {
    if |x| < 4 && |y| < 4 {
      ShortDecodeAlike(x, y);
    } else if |x| >= 4 && |y| >= 4 {
      SextetsDecodeAlike(x[4..], y[4..]);
      SeenTail(x, y);
      BytesTail(x, y);
    } else {
      BytesLength(x);
      BytesLength(y);
    }
  }

  /** Digits that decoding looks at. */
  function SeenLength(n: nat): nat {
    if n % 4 == 1 then n - 1 else n
  }

  lemma ValueInjective(c: char, d: char)
    requires IsDigit(c) && IsDigit(d)
    ensures Value(c) == Value(d) <==> c == d
  {
  }

  lemma SameDigits(s: string, t: string, n: nat)
    requires AllDigits(s) && AllDigits(t) && n <= |s| && n <= |t|
    ensures (forall i :: 0 <= i < n ==> Values(s)[i] == Values(t)[i]) <==> (forall i :: 0 <= i < n ==> s[i] == t[i])
  {
    forall i | 0 <= i < n
      ensures Values(s)[i] == Values(t)[i] <==> s[i] == t[i]
    {
      ValueInjective(s[i], t[i]);
    }
  }

  lemma SeenIsPrefix(d: seq<Sextet>)
    ensures Seen(d) == d[..SeenLength(|d|)]
  {
  }

  /** The same on strings: same seen length, same digits before the last, same kept bits of the last. */
  lemma LeftoverBitsAreDropped(s: string, t: string)
    requires AllDigits(s) && AllDigits(t)
    ensures var n := SeenLength(|s|);
      Decode(s) == Decode(t) <==>
      SeenLength(|t|) == n && (forall i :: 0 <= i < n - 1 ==> s[i] == t[i]) &&
      (n > 0 ==> KeptBits(n, Value(s[n - 1])) == KeptBits(n, Value(t[n - 1])))
  {
    SextetsDecodeAlike(Values(s), Values(t));
    SeenStrings(s, t);
  }

  lemma SeenStrings(s: string, t: string)
    requires AllDigits(s) && AllDigits(t)
    ensures var n := SeenLength(|s|);
      SameSeen(Seen(Values(s)), Seen(Values(t))) <==>
      SeenLength(|t|) == n && (forall i :: 0 <= i < n - 1 ==> s[i] == t[i]) &&
      (n > 0 ==> KeptBits(n, Value(s[n - 1])) == KeptBits(n, Value(t[n - 1])))
  {
    var x, y, n := Values(s), Values(t), SeenLength(|s|);
    SeenIsPrefix(x);
    SeenIsPrefix(y);
    if SeenLength(|t|) == n && n > 0 {
      SameDigits(s, t, n - 1);
      assert SameSeen(x[..n], y[..n]) <==>
        (forall i :: 0 <= i < n - 1 ==> x[i] == y[i]) && KeptBits(n, x[n - 1]) == KeptBits(n, y[n - 1]);
    }
  }

  /** So only re-encoding tells such strings apart: one literal pair. */
  lemma TwoSpellings()
    ensures Decode("QQ") == Decode("QR") && Encode(Decode("QR")) == "QQ"
  {
  }

  /** The alphabet (section 5 of RFC 4648): upper-case letters, lower-case letters, digits, and two
      signs that need no escape in a URL. */
  lemma AlphabetIsUrlSafe(d: Sextet)
    ensures Digit(d) == (
      if d < 26 then 'A' + d as char
      else if d < 52 then 'a' + (d - 26) as char
      else if d < 62 then '0' + (d - 52) as char
      else if d == 62 then '-' else '_')
  {
  }

  /** The first bytes of the test vectors (section 10 of RFC 4648), without padding. */
  lemma TestVectors()
    ensures Encode([]) == "" && Encode([0x66]) == "Zg" && Encode([0x66, 0x6f]) == "Zm8"
    ensures Encode([0x66, 0x6f, 0x6f]) == "Zm9v"
  {
  }

  /** Each whole group of three bytes becomes four digits, whatever follows it. */
  lemma EncodesGroupByGroup(a: Byte, b: Byte, c: Byte, rest: seq<Byte>)
    ensures Encode([a, b, c] + rest) == Encode([a, b, c]) + Encode(rest)
  {
    assert ([a, b, c] + rest)[3..] == rest;
    assert [a, b, c][3..] == [];
  }
}
