/** The tuple-vector helpers, the sphere-sphere collision test and the colour encoder of
    utils/util.py. Python floats are modelled as exact reals; tuples as sequences. */
module Util {
  import opened Errors

  /** A three-component tuple vector. */
  type Vec3 = v: seq<real> | |v| == 3 witness [0.0, 0.0, 0.0]

  function Min(a: int, b: int): int { if a <= b then a else b }

  // ---------------------------------------------------------------------------
  // Vector arithmetic. Every helper zips its arguments, so it stops at the
  // shorter of the two.
  // ---------------------------------------------------------------------------

  /** add_vecs: the element-wise sum of the zipped vectors. */
  function AddVecs(v1: seq<real>, v2: seq<real>): (r: seq<real>)
    ensures |r| == Min(|v1|, |v2|)
    ensures forall i :: 0 <= i < |r| ==> r[i] == v1[i] + v2[i]
  {
    if |v1| == 0 || |v2| == 0 then [] else [v1[0] + v2[0]] + AddVecs(v1[1..], v2[1..])
  }

  /** sub_vecs: the element-wise difference v2 - v1 (second minus first, against the name). */
  function SubVecs(v1: seq<real>, v2: seq<real>): (r: seq<real>)
    ensures |r| == Min(|v1|, |v2|)
    ensures forall i :: 0 <= i < |r| ==> r[i] == v2[i] - v1[i]
  {
    if |v1| == 0 || |v2| == 0 then [] else [v2[0] - v1[0]] + SubVecs(v1[1..], v2[1..])
  }

  /** dot_vecs: the sum of the products of the zipped components. */
  function DotVecs(v1: seq<real>, v2: seq<real>): real
  {
    if |v1| == 0 || |v2| == 0 then 0.0 else v1[0] * v2[0] + DotVecs(v1[1..], v2[1..])
  }

  /** cross_vecs: the cross product; the source unpacks both arguments as triples. */
  function CrossVecs(v1: Vec3, v2: Vec3): Vec3
  {
    [v1[1] * v2[2] - v1[2] * v2[1],
     v1[2] * v2[0] - v1[0] * v2[2],
     v1[0] * v2[1] - v1[1] * v2[0]]
  }

  /** scalar_mult: every component multiplied by s. */
  function ScalarMult(s: real, v: seq<real>): (r: seq<real>)
    ensures |r| == |v|
    ensures forall i :: 0 <= i < |r| ==> r[i] == s * v[i]
  {
    if |v| == 0 then [] else [s * v[0]] + ScalarMult(s, v[1..])
  }

  /** The square of mag(v): the sum of the squared components. */
  function SqMag(v: seq<real>): real
  {
    DotVecs(v, v)
  }

  /** The square of dist(p1, p2): the sum of the squared component differences. */
  function SqDist(p1: seq<real>, p2: seq<real>): real
  {
    SqMag(SubVecs(p1, p2))
  }

  /** is_colliding(p1, r1, p2, r2), which the source writes dist(p1, p2) < r1 + r2. The distance
      is a non-negative square root, so the test is written here on squares;
      CollidingIffDistanceBelow proves the two forms agree. */
  predicate IsColliding(p1: seq<real>, r1: real, p2: seq<real>, r2: real)
  {
    0.0 < r1 + r2 && SqDist(p1, p2) < (r1 + r2) * (r1 + r2)
  }

  // ---------------------------------------------------------------------------
  // Properties of the vector helpers.
  // ---------------------------------------------------------------------------

  /** add_vecs does not depend on the order of its arguments. */
  lemma AddVecsCommutes(v1: seq<real>, v2: seq<real>)
    ensures AddVecs(v1, v2) == AddVecs(v2, v1)
  {
  }

  /** Adding sub_vecs(v1, v2) back onto v1 gives v2 (cut to the shorter length). */
  lemma AddSubRoundTrip(v1: seq<real>, v2: seq<real>)
    ensures AddVecs(v1, SubVecs(v1, v2)) == v2[..Min(|v1|, |v2|)]
  {
  }

  /** dot_vecs is symmetric. */
  lemma {:induction false} DotSymmetric(v1: seq<real>, v2: seq<real>)
    ensures DotVecs(v1, v2) == DotVecs(v2, v1)
  {
    if |v1| != 0 && |v2| != 0 {
      DotSymmetric(v1[1..], v2[1..]);
    }
  }

  /** The dot product of a vector with itself is never negative. */
  lemma {:induction false} DotSelfNonNegative(v: seq<real>)
    ensures DotVecs(v, v) >= 0.0
  {
    if |v| != 0 {
      DotSelfNonNegative(v[1..]);
      assert v[0] * v[0] >= 0.0;
    }
  }

  /** dot_vecs of two triples, written out. */
  lemma DotVecs3(u: Vec3, v: Vec3)
    ensures DotVecs(u, v) == u[0] * v[0] + u[1] * v[1] + u[2] * v[2]
  {
    assert DotVecs(u, v) == u[0] * v[0] + DotVecs(u[1..], v[1..]);
    assert DotVecs(u[1..], v[1..]) == u[1] * v[1] + DotVecs(u[2..], v[2..]);
    assert DotVecs(u[2..], v[2..]) == u[2] * v[2] + DotVecs(u[3..], v[3..]);
  }

  /** cross_vecs(a, b) is perpendicular to both a and b. */
  lemma CrossOrthogonal(a: Vec3, b: Vec3)
    ensures DotVecs(a, CrossVecs(a, b)) == 0.0
    ensures DotVecs(b, CrossVecs(a, b)) == 0.0
  {
    var c := CrossVecs(a, b);
    DotVecs3(a, c);
    DotVecs3(b, c);
    calc {
      a[0] * c[0] + a[1] * c[1] + a[2] * c[2];
      a[0] * (a[1] * b[2] - a[2] * b[1]) + a[1] * (a[2] * b[0] - a[0] * b[2])
        + a[2] * (a[0] * b[1] - a[1] * b[0]);
      0.0;
    }
    calc {
      b[0] * c[0] + b[1] * c[1] + b[2] * c[2];
      b[0] * (a[1] * b[2] - a[2] * b[1]) + b[1] * (a[2] * b[0] - a[0] * b[2])
        + b[2] * (a[0] * b[1] - a[1] * b[0]);
      0.0;
    }
  }

  /** Swapping the arguments of cross_vecs negates the result. */
  lemma CrossAnticommutes(a: Vec3, b: Vec3)
    ensures CrossVecs(b, a) == ScalarMult(-1.0, CrossVecs(a, b))
  {
  }

  /** Scaling by one is the identity. */
  lemma ScalarMultOne(v: seq<real>)
    ensures ScalarMult(1.0, v) == v
  {
  }

  /** Scaling distributes over add_vecs. */
  lemma ScalarMultDistributes(s: real, u: seq<real>, v: seq<real>)
    ensures ScalarMult(s, AddVecs(u, v)) == AddVecs(ScalarMult(s, u), ScalarMult(s, v))
  {
    var w := AddVecs(u, v);
    var lhs, su, sv := ScalarMult(s, w), ScalarMult(s, u), ScalarMult(s, v);
    var rhs := AddVecs(su, sv);
    assert |lhs| == |rhs|;
    forall i | 0 <= i < |lhs| ensures lhs[i] == rhs[i] {
      calc {
        lhs[i];
        s * w[i];
        s * (u[i] + v[i]);
        s * u[i] + s * v[i];
        su[i] + sv[i];
      }
    }
  }

  /** Scaling a vector by k scales its squared magnitude by k * k. */
  lemma {:induction false} SqMagScale(k: real, v: seq<real>)
    ensures SqMag(ScalarMult(k, v)) == k * k * SqMag(v)
  {
    if |v| != 0 {
      var w := ScalarMult(k, v);
      assert w[1..] == ScalarMult(k, v[1..]);
      SqMagScale(k, v[1..]);
      assert w[0] * w[0] == k * k * (v[0] * v[0]);
    }
  }

  /** The squared distance does not depend on the order of the two points. */
  lemma {:induction false} SqDistSymmetric(p1: seq<real>, p2: seq<real>)
    ensures SqDist(p1, p2) == SqDist(p2, p1)
  {
    if |p1| != 0 && |p2| != 0 {
      var d, e := SubVecs(p1, p2), SubVecs(p2, p1);
      assert d[1..] == SubVecs(p1[1..], p2[1..]);
      assert e[1..] == SubVecs(p2[1..], p1[1..]);
      SqDistSymmetric(p1[1..], p2[1..]);
    }
  }

  /** A point is at squared distance zero from itself. */
  lemma {:induction false} SqDistSelf(p: seq<real>)
    ensures SqDist(p, p) == 0.0
  {
    if |p| != 0 {
      var d := SubVecs(p, p);
      assert d[1..] == SubVecs(p[1..], p[1..]);
      SqDistSelf(p[1..]);
    }
  }

  /** The product of two positive reals is positive. */
  lemma PositiveProduct(x: real, y: real)
    requires x > 0.0 && y > 0.0
    ensures x * y > 0.0
  {
  }

  /** For non-negative reals the order of squares is the order of the numbers. */
  lemma SquaresOrdered(d: real, c: real)
    requires d >= 0.0
    ensures c > 0.0 ==> (d < c <==> d * d < c * c)
    ensures c >= 0.0 ==> (d <= c <==> d * d <= c * c)
  {
    if c >= 0.0 {
      if d < c {
        PositiveProduct(c - d, c + d);
        assert (c - d) * (c + d) == c * c - d * d;
      } else if d > c {
        PositiveProduct(d - c, d + c);
        assert (d - c) * (d + c) == d * d - c * c;
      }
    }
  }

  /** The test on squares is the source's test dist(p1, p2) < r1 + r2, for d the distance
      (the non-negative square root of the squared distance). */
  lemma CollidingIffDistanceBelow(p1: seq<real>, r1: real, p2: seq<real>, r2: real, d: real)
    requires d >= 0.0 && d * d == SqDist(p1, p2)
    ensures IsColliding(p1, r1, p2, r2) <==> d < r1 + r2
  {
    SquaresOrdered(d, r1 + r2);
  }

  /** is_colliding is symmetric in its two (point, radius) pairs. */
  lemma CollidingSymmetric(p1: seq<real>, r1: real, p2: seq<real>, r2: real)
    ensures IsColliding(p1, r1, p2, r2) == IsColliding(p2, r2, p1, r1)
  {
    SqDistSymmetric(p1, p2);
  }

  /** Two spheres whose radii sum to zero or less never collide. */
  lemma NoReachNoCollision(p1: seq<real>, r1: real, p2: seq<real>, r2: real)
    requires r1 + r2 <= 0.0
    ensures !IsColliding(p1, r1, p2, r2)
  {
  }

  /** Two spheres at the same point collide exactly when their radii sum to more than zero. */
  lemma SamePointCollides(p: seq<real>, r1: real, r2: real)
    ensures IsColliding(p, r1, p, r2) <==> r1 + r2 > 0.0
  {
    SqDistSelf(p);
    SquaresOrdered(SqDist(p, p), r1 + r2);
  }

  // ---------------------------------------------------------------------------
  // coltup_to_bytes: every number formatted with '02x', joined, decoded by bytes.fromhex.
  // ---------------------------------------------------------------------------

  newtype byte = x: int | 0 <= x < 256

  /** The lower-case hex digit of 0 <= n < 16, as Python's 'x' format writes it. */
  function HexDigit(n: int): (c: char)
    requires 0 <= n < 16
    ensures IsHexChar(c) && HexValue(c) == n
  {
    if n < 10 then ('0' as int + n) as char else ('a' as int + n - 10) as char
  }

  /** format(n, 'x') for n >= 0: the hex digits with no padding. */
  function ToHex(n: nat): (s: string)
    ensures |s| >= 1
    decreases n
  {
    if n < 16 then [HexDigit(n)] else ToHex(n / 16) + [HexDigit(n % 16)]
  }

  /** f'{n:02x}': padded with zeros to width two; a negative number is '-' then its digits. */
  function Format02x(n: int): string
  {
    if n >= 0 then
      var h := ToHex(n);
      if |h| < 2 then "0" + h else h
    else
      "-" + ToHex(-n)
  }

  /** ''.join(f'{n:02x}' for n in tup) */
  function JoinFormatted(tup: seq<int>): string
  {
    if |tup| == 0 then "" else Format02x(tup[0]) + JoinFormatted(tup[1..])
  }

  predicate IsHexChar(c: char)
  {
    ('0' <= c <= '9') || ('a' <= c <= 'f') || ('A' <= c <= 'F')
  }

  function HexValue(c: char): (v: int)
    requires IsHexChar(c)
    ensures 0 <= v < 16
  {
    if '0' <= c <= '9' then c as int - '0' as int
    else if 'a' <= c <= 'f' then c as int - 'a' as int + 10
    else c as int - 'A' as int + 10
  }

  /** The ASCII whitespace that bytes.fromhex skips before a pair of digits. */
  predicate IsAsciiSpace(c: char)
  {
    c == ' ' || ('\t' <= c <= '\r')
  }

  /** bytes.fromhex: pairs of hex digits, whitespace allowed before each pair; anything else,
      or a lone final digit, is a ValueError. */
  function FromHex(s: string): Result<seq<byte>>
    decreases |s|
  {
    if |s| == 0 then Ok([])
    else if IsAsciiSpace(s[0]) then FromHex(s[1..])
    else if |s| == 1 || !IsHexChar(s[0]) || !IsHexChar(s[1]) then Err(ValueError)
    else
      var rest :- FromHex(s[2..]);
      Ok([(HexValue(s[0]) * 16 + HexValue(s[1])) as byte] + rest)
  }

  /** coltup_to_bytes */
  function ColtupToBytes(tup: seq<int>): Result<seq<byte>>
  {
    FromHex(JoinFormatted(tup))
  }

  /** A number in 0..255 formats as exactly two hex digits that spell it. */
  lemma Format02xByte(n: int)
    requires 0 <= n < 256
    ensures |Format02x(n)| == 2
    ensures IsHexChar(Format02x(n)[0]) && IsHexChar(Format02x(n)[1])
    ensures HexValue(Format02x(n)[0]) * 16 + HexValue(Format02x(n)[1]) == n
  {
    if n >= 16 {
      assert ToHex(n) == [HexDigit(n / 16)] + [HexDigit(n % 16)];
    }
  }

  /** For a tuple of numbers in 0..255, coltup_to_bytes returns one byte per number, each equal
      to that number: the encoding and bytes.fromhex are inverse. */
  lemma {:induction false} ColtupRoundTrip(tup: seq<int>)
    requires forall i :: 0 <= i < |tup| ==> 0 <= tup[i] < 256
    ensures ColtupToBytes(tup).Ok?
    ensures |ColtupToBytes(tup).value| == |tup|
    ensures forall i :: 0 <= i < |tup| ==> ColtupToBytes(tup).value[i] as int == tup[i]
  {
    if |tup| != 0 {
      var head, tail := Format02x(tup[0]), JoinFormatted(tup[1..]);
      Format02xByte(tup[0]);
      ColtupRoundTrip(tup[1..]);
      var s := head + tail;
      assert s[2..] == tail;
      assert !IsAsciiSpace(s[0]);
      var rest := FromHex(tail).value;
      assert FromHex(s) == Ok([(HexValue(s[0]) * 16 + HexValue(s[1])) as byte] + rest);
    }
  }

  /** bytes.fromhex on two hex digits followed by more text. */
  lemma FromHexPair(a: char, b: char, rest: string)
    requires IsHexChar(a) && IsHexChar(b)
    ensures FromHex([a, b] + rest) ==
      if FromHex(rest).Ok? then Ok([(HexValue(a) * 16 + HexValue(b)) as byte] + FromHex(rest).value)
      else FromHex(rest)
  {
    var s := [a, b] + rest;
    assert s[2..] == rest;
    assert !IsAsciiSpace(s[0]);
  }

  /** Outside 0..255 the encoding breaks: 256 formats as three digits, so two of them decode to
      three bytes, and a single 300 leaves a lone digit, which bytes.fromhex rejects. */
  lemma OutOfRangeComponents()
    ensures ColtupToBytes([256, 256]) == Ok([16, 1, 0])
    ensures ColtupToBytes([300]) == Err(ValueError)
  {
    assert ToHex(256) == "100" by {
      assert ToHex(16) == "10";
    }
    assert JoinFormatted([256, 256]) == "100100" by {
      assert [256, 256][1..] == [256];
    }
    FromHexPair('0', '0', "");
    assert "00" == ['0', '0'] + "";
    assert FromHex("00").value == [0];
    FromHexPair('0', '1', "00");
    assert "0100" == ['0', '1'] + "00";
    assert FromHex("0100").value == [1, 0];
    FromHexPair('1', '0', "0100");
    assert "100100" == ['1', '0'] + "0100";
    assert FromHex("100100").value == [16, 1, 0];
    assert ToHex(300) == "12c" by {
      assert ToHex(18) == "12";
    }
    assert JoinFormatted([300]) == "12c";
    FromHexPair('1', '2', "c");
    assert "12c" == ['1', '2'] + "c";
    assert FromHex("c") == Err(ValueError);
  }
}
