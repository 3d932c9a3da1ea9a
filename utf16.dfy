/** UTF-16 code units and their relation to Swift `String` values.
    The editor addresses its text the way `NSString` does, by UTF-16 code unit;
    Swift `String`s (keys, words, clusters) are sequences of Unicode scalars,
    which is what a Dafny `string` is. `Units` is a string's `utf16` view and
    `Decode` builds a `String` from units, replacing any lone surrogate by
    U+FFFD as Swift does. */
module Utf16 {

  /** One UTF-16 code unit. */
  type Unit = x: int | 0 <= x < 0x1_0000

  const Replacement: char := '\U{FFFD}'

  predicate IsHigh(u: Unit) { 0xD800 <= u < 0xDC00 }
  predicate IsLow(u: Unit) { 0xDC00 <= u < 0xE000 }
  predicate IsSurrogate(u: Unit) { 0xD800 <= u < 0xE000 }

  /** The scalar a surrogate pair stands for. */
  function Pair(hi: Unit, lo: Unit): (c: char)
    requires IsHigh(hi) && IsLow(lo)
    ensures 0x1_0000 <= c as int
  {
    (0x1_0000 + (hi - 0xD800) * 0x400 + (lo - 0xDC00)) as char
  }

  /** The UTF-16 encoding of one scalar: one unit in the Basic Multilingual
      Plane, a surrogate pair above it. */
  function UnitsOf(c: char): (u: seq<Unit>)
    ensures 1 <= |u| <= 2
    ensures |u| == 1 <==> c as int < 0x1_0000
  {
    var v := c as int;
    if v < 0x1_0000 then [v]
    else [0xD800 + (v - 0x1_0000) / 0x400, 0xDC00 + (v - 0x1_0000) % 0x400]
  }

  /** `s.utf16` */
  function Units(s: string): seq<Unit>
  {
    if s == [] then [] else UnitsOf(s[0]) + Units(s[1..])
  }

  /** `String` built from UTF-16 units: a well-formed pair becomes one scalar,
      a lone surrogate becomes U+FFFD, any other unit is its own scalar. */
  function Decode(u: seq<Unit>): string
    decreases |u|
  {
    if u == [] then []
    else if |u| >= 2 && IsHigh(u[0]) && IsLow(u[1]) then [Pair(u[0], u[1])] + Decode(u[2..])
    else if IsSurrogate(u[0]) then [Replacement] + Decode(u[1..])
    else [u[0] as char] + Decode(u[1..])
  }

  /** Units that contain no lone surrogate. */
  predicate WellFormed(u: seq<Unit>)
    decreases |u|
  {
    if u == [] then true
    else if |u| >= 2 && IsHigh(u[0]) && IsLow(u[1]) then WellFormed(u[2..])
    else !IsSurrogate(u[0]) && WellFormed(u[1..])
  }

  /** Every scalar of `s` lies in the Basic Multilingual Plane. */
  predicate AllBmp(s: string)
  {
    forall i :: 0 <= i < |s| ==> s[i] as int < 0x1_0000
  }

  lemma {:induction false} UnitsAppend(a: string, b: string)
    ensures Units(a + b) == Units(a) + Units(b)
  {
    if a == [] {
      assert a + b == b;
    } else {
      assert (a + b)[1..] == a[1..] + b;
      UnitsAppend(a[1..], b);
    }
  }

  /** A string has at least one and at most two units per scalar, and exactly
      one per scalar when it stays in the Basic Multilingual Plane. */
  lemma {:induction false} UnitsLength(s: string)
    ensures |s| <= |Units(s)| <= 2 * |s|
    ensures AllBmp(s) ==> |Units(s)| == |s|
  {
    if s != [] {
      UnitsLength(s[1..]);
      assert AllBmp(s) ==> AllBmp(s[1..]) && s[0] as int < 0x1_0000;
    }
  }

  lemma PairOfUnits(c: char)
    requires c as int >= 0x1_0000
    ensures IsHigh(UnitsOf(c)[0]) && IsLow(UnitsOf(c)[1])
    ensures Pair(UnitsOf(c)[0], UnitsOf(c)[1]) == c
  {
    var v := c as int - 0x1_0000;
    assert v == (v / 0x400) * 0x400 + v % 0x400;
  }

  lemma UnitsOfPair(hi: Unit, lo: Unit)
    requires IsHigh(hi) && IsLow(lo)
    ensures UnitsOf(Pair(hi, lo)) == [hi, lo]
  {
    var v := (hi - 0xD800) * 0x400 + (lo - 0xDC00);
    assert v / 0x400 == hi - 0xD800 && v % 0x400 == lo - 0xDC00;
  }

  /** Round trip: decoding the units of any string gives the string back. */
  lemma {:induction false} DecodeUnits(s: string)
    ensures Decode(Units(s)) == s
  {
    if s != [] {
      var u := Units(s);
      assert u == UnitsOf(s[0]) + Units(s[1..]);
      if s[0] as int >= 0x1_0000 {
        PairOfUnits(s[0]);
        assert u[2..] == Units(s[1..]);
      } else {
        assert u[1..] == Units(s[1..]);
      }
      DecodeUnits(s[1..]);
    }
  }

  /** Round trip the other way: re-encoding decoded units gives them back
      exactly when they contain no lone surrogate. */
  lemma {:induction false} UnitsDecode(u: seq<Unit>)
    requires WellFormed(u)
    ensures Units(Decode(u)) == u
    decreases |u|
  {
    if u != [] {
      var d := Decode(u);
      if |u| >= 2 && IsHigh(u[0]) && IsLow(u[1]) {
        var c, rest := Pair(u[0], u[1]), Decode(u[2..]);
        assert d == [c] + rest;
        assert d[0] == c && d[1..] == rest;
        assert Units(d) == UnitsOf(c) + Units(rest);
        UnitsOfPair(u[0], u[1]);
        UnitsDecode(u[2..]);
        assert u == [u[0], u[1]] + u[2..];
      } else {
        var c, rest := u[0] as char, Decode(u[1..]);
        assert d == [c] + rest;
        assert d[0] == c && d[1..] == rest;
        assert Units(d) == UnitsOf(c) + Units(rest);
        assert UnitsOf(c) == [u[0]];
        UnitsDecode(u[1..]);
        assert u == [u[0]] + u[1..];
      }
    }
  }

  /** Repairing lone surrogates never changes the number of units. */
  lemma {:induction false} DecodeKeepsLength(u: seq<Unit>)
    ensures |Units(Decode(u))| == |u|
    decreases |u|
  {
    if u != [] {
      var d := Decode(u);
      if |u| >= 2 && IsHigh(u[0]) && IsLow(u[1]) {
        DecodeKeepsLength(u[2..]);
        UnitsOfPair(u[0], u[1]);
        assert d[1..] == Decode(u[2..]);
      } else {
        DecodeKeepsLength(u[1..]);
        assert d[1..] == Decode(u[1..]);
      }
    }
  }

  lemma AppendAfterPair(a: seq<Unit>, b: seq<Unit>)
    requires |a| >= 2 && IsHigh(a[0]) && IsLow(a[1]) && WellFormed(a[2..] + b)
    ensures WellFormed(a + b)
  {
    assert (a + b)[2..] == a[2..] + b;
  }

  lemma AppendAfterUnit(a: seq<Unit>, b: seq<Unit>)
    requires |a| >= 1 && !IsSurrogate(a[0]) && WellFormed(a[1..] + b)
    ensures WellFormed(a + b)
  {
    assert (a + b)[1..] == a[1..] + b;
  }

  lemma {:induction false} WellFormedAppend(a: seq<Unit>, b: seq<Unit>)
    requires WellFormed(a) && WellFormed(b)
    ensures WellFormed(a + b)
    decreases |a|
  {
    if a == [] {
      assert a + b == b;
    } else if |a| >= 2 && IsHigh(a[0]) && IsLow(a[1]) {
      WellFormedAppend(a[2..], b);
      AppendAfterPair(a, b);
    } else {
      WellFormedAppend(a[1..], b);
      AppendAfterUnit(a, b);
    }
  }

  /** The units of a string never hold a lone surrogate. */
  lemma {:induction false} UnitsWellFormed(s: string)
    ensures WellFormed(Units(s))
  {
    if s != [] {
      UnitsWellFormed(s[1..]);
      var h := UnitsOf(s[0]);
      if s[0] as int >= 0x1_0000 {
        PairOfUnits(s[0]);
        assert h[2..] == [];
      } else {
        assert h[1..] == [];
      }
      WellFormedAppend(h, Units(s[1..]));
    }
  }

  /** Dropping a final Basic-Multilingual-Plane scalar from the decoding of
      well-formed units drops exactly the final unit. */
  lemma {:induction false} DropLastBmp(u: seq<Unit>)
    requires WellFormed(u)
    requires |Decode(u)| > 0 && Decode(u)[|Decode(u)| - 1] as int < 0x1_0000
    ensures |u| > 0
    ensures Units(Decode(u)[..|Decode(u)| - 1]) == u[..|u| - 1]
  {
    UnitsDecode(u);
    DropLastBmpUnits(Decode(u));
  }

  /** Dropping a final Basic-Multilingual-Plane scalar drops exactly the
      final unit of the string's units. */
  lemma DropLastBmpUnits(s: string)
    requires |s| > 0 && s[|s| - 1] as int < 0x1_0000
    ensures |Units(s)| > 0
    ensures Units(s[..|s| - 1]) == Units(s)[..|Units(s)| - 1]
  {
    var n := |s|;
    var last := s[n - 1];
    assert s == s[..n - 1] + [last];
    UnitsAppend(s[..n - 1], [last]);
    UnitsOfBmp(last);
    assert Units(s) == Units(s[..n - 1]) + [last as int];
  }

  lemma UnitsOfBmp(c: char)
    requires c as int < 0x1_0000
    ensures Units([c]) == [c as int]
  {
    assert [c][1..] == [];
  }
}
