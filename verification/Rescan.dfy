/** Every literal that the tokenizer yields is a fixed point of it: scanned again, it is itself. */
module Rescan {
  import opened Sequences
  import opened Scanner
  import opened Decimals

  // ----- a match does not depend on what precedes it, beyond the look-behind -----

  lemma MatchFromStart(s: string, i: nat, b: string)
    requires Aligned(s, i, b) && Boundary(s, i)
    ensures MatchEnd(s, i) == i + MatchEnd(b, 0)
  {
    ShapeShift(s, i, b, 0, "dddd-dd-dd");
    if Shape(b, 0, "dddd-dd-dd") {
      ShapeFits(b, 0, "dddd-dd-dd");
      TimeShift(s, i, b, 10);
    } else {
      var j := AfterSign(b, 0);
      assert AfterSign(s, i) == i + j && DigitAt(s, i + j) == DigitAt(b, j);
      if DigitAt(b, j) {
        NumberShift(s, i, b, j);
      }
    }
  }

  // ----- nor on what follows it -----

  lemma {:induction false} ShapeTrunc(b: string, n: nat, i: nat, p: string)
    requires n <= |b|
    ensures Shape(b[..n], i, p) ==> Shape(b, i, p)
    ensures Shape(b, i, p) && i + |p| <= n ==> Shape(b[..n], i, p)
    decreases |p|
  {
    if p != [] {
      ShapeTrunc(b, n, i + 1, p[1..]);
    }
  }

  lemma {:induction false} RunTrunc(b: string, n: nat, i: nat, commas: bool)
    requires i <= n <= |b| && RunEnd(b, i, commas) <= n
    ensures RunEnd(b[..n], i, commas) == RunEnd(b, i, commas)
    decreases n - i
  {
    if i < n {
      if IsDigit(b[i]) || (commas && b[i] == ',') {
        RunTrunc(b, n, i + 1, commas);
      }
    }
  }

  lemma FractionTrunc(b: string, n: nat, i: nat)
    requires i <= n <= |b| && FractionEnd(b, i) <= n
    ensures FractionEnd(b[..n], i) == FractionEnd(b, i)
  {
    ShapeTrunc(b, n, i, ".d");
    if Shape(b, i, ".d") {
      ShapeFits(b, i, ".d");
      PointDigit(b, i);
      RunTrunc(b, n, i + 1, false);
    }
  }

  /** A fraction takes at least the point and one digit. */
  lemma PointDigit(b: string, i: nat)
    requires i < |b| && Shape(b, i, ".d")
    ensures i + 2 <= |b| && RunEnd(b, i + 1, false) >= i + 2
  {
    ShapeFits(b, i, ".d");
    assert ".d"[1..] == "d";
    assert Shape(b, i + 1, "d");
  }

  lemma ZoneTrunc(b: string, n: nat, i: nat)
    requires i <= n <= |b| && ZoneEnd(b, i) <= n
    ensures ZoneEnd(b[..n], i) == ZoneEnd(b, i)
  {
    ShapeTrunc(b, n, i, "Z");
    ShapeTrunc(b, n, i, "+dd:dd");
    ShapeTrunc(b, n, i, "-dd:dd");
  }

  lemma TimeTrunc(b: string, n: nat, i: nat)
    requires i <= n <= |b| && TimeEnd(b, i) <= n
    ensures TimeEnd(b[..n], i) == TimeEnd(b, i)
  {
    ShapeTrunc(b, n, i, "Tdd:dd:dd");
    if Shape(b, i, "Tdd:dd:dd") {
      ShapeFits(b, i, "Tdd:dd:dd");
      FractionTrunc(b, n, i + 9);
      ZoneTrunc(b, n, FractionEnd(b, i + 9));
    }
  }

  lemma NumberTrunc(b: string, n: nat, j: nat)
    requires j < n <= |b| && NumberEnd(b, j) <= n
    ensures NumberEnd(b[..n], j) == NumberEnd(b, j)
  {
    RunTrunc(b, n, j + 1, true);
    FractionTrunc(b, n, RunEnd(b, j + 1, true));
  }

  /** Cut off at its end, a match is still a whole match. */
  lemma MatchTrunc(b: string, n: nat)
    requires n == MatchEnd(b, 0) && n > 0
    ensures MatchEnd(b[..n], 0) == n
  {
    ShapeTrunc(b, n, 0, "dddd-dd-dd");
    if Shape(b, 0, "dddd-dd-dd") {
      ShapeFits(b, 0, "dddd-dd-dd");
      TimeTrunc(b, n, 10);
    } else {
      NumberTrunc(b, n, AfterSign(b, 0));
    }
  }

  // ----- commas -----

  predicate CommaFree(s: string) { ',' !in s }

  lemma {:induction false} StripNothing(s: string)
    requires CommaFree(s)
    ensures WithoutCommas(s) == s
  {
    if s != "" {
      StripNothing(s[1..]);
    }
  }

  lemma {:induction false} StripConcat(a: string, b: string)
    ensures WithoutCommas(a + b) == WithoutCommas(a) + WithoutCommas(b)
  {
    if a == "" {
      assert a + b == b;
    } else {
      StripConcat(a[1..], b);
      assert (a + b)[1..] == a[1..] + b && (a + b)[0] == a[0];
    }
  }

  lemma {:induction false} StripIsCommaFree(s: string)
    ensures CommaFree(WithoutCommas(s))
  {
    if s != "" {
      StripIsCommaFree(s[1..]);
    }
  }

  predicate NoComma(s: string, i: nat, e: nat) { e <= |s| && forall k :: i <= k < e ==> s[k] != ',' }

  lemma {:induction false} ShapeCommas(s: string, i: nat, p: string)
    requires Shape(s, i, p) && ',' !in p && i <= |s|
    ensures NoComma(s, i, i + |p|)
    decreases |p|
  {
    if p != [] {
      ShapeCommas(s, i + 1, p[1..]);
    }
  }

  lemma {:induction false} RunCommas(s: string, i: nat)
    requires i <= |s|
    ensures NoComma(s, i, RunEnd(s, i, false))
    decreases |s| - i
  {
    if i < |s| && IsDigit(s[i]) {
      RunCommas(s, i + 1);
    }
  }

  lemma FractionCommas(s: string, i: nat)
    requires i <= |s|
    ensures NoComma(s, i, FractionEnd(s, i))
  {
    if Shape(s, i, ".d") {
      ShapeFits(s, i, ".d");
      RunCommas(s, i + 1);
    }
  }

  lemma ZoneCommas(s: string, i: nat)
    requires i <= |s|
    ensures NoComma(s, i, ZoneEnd(s, i))
  {
    if Shape(s, i, "Z") {
      ShapeCommas(s, i, "Z");
    } else if Shape(s, i, "+dd:dd") {
      ShapeCommas(s, i, "+dd:dd");
    } else if Shape(s, i, "-dd:dd") {
      ShapeCommas(s, i, "-dd:dd");
    }
  }

  lemma TimeCommas(s: string, i: nat)
    requires i <= |s|
    ensures NoComma(s, i, TimeEnd(s, i))
  {
    if Shape(s, i, "Tdd:dd:dd") {
      ShapeFits(s, i, "Tdd:dd:dd");
      ShapeCommas(s, i, "Tdd:dd:dd");
      FractionCommas(s, i + 9);
      ZoneCommas(s, FractionEnd(s, i + 9));
    }
  }

  lemma DateCommas(t: string)
    requires Shape(t, 0, "dddd-dd-dd") && MatchEnd(t, 0) == |t|
    ensures CommaFree(t)
  {
    ShapeFits(t, 0, "dddd-dd-dd");
    ShapeCommas(t, 0, "dddd-dd-dd");
    TimeCommas(t, 10);
  }

  // ----- numbers without their commas -----

  lemma {:induction false} StrippedRun(run: string)
    requires forall k :: 0 <= k < |run| ==> IsDigit(run[k]) || run[k] == ','
    ensures AllDigits(WithoutCommas(run))
  {
    if run != "" {
      StrippedRun(run[1..]);
    }
  }

  lemma {:induction false} RunMembers(s: string, i: nat)
    requires i <= |s|
    ensures forall k :: i <= k < RunEnd(s, i, true) ==> IsDigit(s[k]) || s[k] == ','
    ensures RunEnd(s, i, true) < |s| ==> !IsDigit(s[RunEnd(s, i, true)]) && s[RunEnd(s, i, true)] != ','
    decreases |s| - i
  {
    if i < |s| && (IsDigit(s[i]) || s[i] == ',') {
      RunMembers(s, i + 1);
    }
  }

  lemma {:induction false} RunOver(s: string, i: nat, e: nat)
    requires i <= e <= |s| && forall k :: i <= k < e ==> IsDigit(s[k])
    requires e < |s| ==> !IsDigit(s[e]) && s[e] != ','
    ensures RunEnd(s, i, true) == e
    decreases e - i
  {
    if i < e {
      RunOver(s, i + 1, e);
    }
  }

  /** Where a number ends after its integer part, seen from that part's end. */
  function TailEnd(rest: string): nat {
    var k := FractionEnd(rest, 0);
    if k < |rest| && rest[k] == '%' then k + 1 else k
  }

  lemma TailShift(s: string, d: nat, rest: string)
    requires Aligned(s, d, rest)
    ensures var k := FractionEnd(s, d); (if k < |s| && s[k] == '%' then k + 1 else k) == d + TailEnd(rest)
  {
    FractionShift(s, d, rest, 0);
  }

  lemma NumberParts(head: string, run: string, rest: string)
    requires head != "" && forall k :: 0 <= k < |run| ==> IsDigit(run[k])
    requires rest != "" ==> !IsDigit(rest[0]) && rest[0] != ','
    ensures NumberEnd(head + run + rest, |head| - 1) == |head| + |run| + TailEnd(rest)
  {
    var s := head + run + rest;
    RunOver(s, |head|, |head| + |run|);
    TailShift(s, |head| + |run|, rest);
  }

  lemma TailCommas(rest: string)
    requires TailEnd(rest) == |rest|
    ensures CommaFree(rest)
  {
    FractionCommas(rest, 0);
  }

  lemma StrippedParts(head: string, run: string, rest: string)
    requires CommaFree(head) && CommaFree(rest)
    ensures WithoutCommas(head + run + rest) == head + WithoutCommas(run) + rest
  {
    StripNothing(rest);
    StripNothing(head);
    StripConcat(head, run);
    StripConcat(head + run, rest);
  }

  lemma SignKept(head: string, tail: string, j: nat)
    requires |head| == j + 1 && j == AfterSign(head, 0) && DigitAt(head, j)
    ensures AfterSign(head + tail, 0) == j && DigitAt(head + tail, j)
  {}

  lemma StrippedWhole(head: string, run: string, rest: string, j: nat)
    requires |head| == j + 1 && j == AfterSign(head, 0) && DigitAt(head, j) && CommaFree(head) && CommaFree(rest)
    requires (forall k :: 0 <= k < |run| ==> IsDigit(run[k]) || run[k] == ',') && TailEnd(rest) == |rest|
    requires rest != "" ==> !IsDigit(rest[0]) && rest[0] != ','
    ensures var u := WithoutCommas(head + run + rest); AfterSign(u, 0) == j && DigitAt(u, j) && NumberEnd(u, j) == |u|
  {
    StrippedRun(run);
    StrippedParts(head, run, rest);
    NumberParts(head, WithoutCommas(run), rest);
    SignKept(head, WithoutCommas(run) + rest, j);
    assert head + (WithoutCommas(run) + rest) == head + WithoutCommas(run) + rest;
  }

  lemma ThreeParts(t: string, i: nat, r: nat)
    requires i <= r <= |t|
    ensures t == t[..i] + t[i..r] + t[r..]
  {
    assert t == t[..r] + t[r..];
    assert t[..r] == t[..i] + t[i..r];
  }

  /** What the parts of a whole number look like. */
  lemma NumberSplit(t: string, j: nat, r: nat)
    requires j == AfterSign(t, 0) && DigitAt(t, j) && NumberEnd(t, j) == |t| && r == RunEnd(t, j + 1, true)
    ensures forall k :: j + 1 <= k < r ==> IsDigit(t[k]) || t[k] == ','
    ensures t[r..] != "" ==> !IsDigit(t[r..][0]) && t[r..][0] != ','
    ensures TailEnd(t[r..]) == |t[r..]| && CommaFree(t[r..]) && CommaFree(t[..j + 1])
  {
    RunMembers(t, j + 1);
    TailShift(t, r, t[r..]);
    TailCommas(t[r..]);
  }

  lemma HeadSign(t: string, j: nat)
    requires j == AfterSign(t, 0) && DigitAt(t, j)
    ensures j == AfterSign(t[..j + 1], 0) && DigitAt(t[..j + 1], j)
  {}

  /** Without its commas a whole number is a whole number. */
  lemma StrippedNumber(t: string, j: nat)
    requires j == AfterSign(t, 0) && DigitAt(t, j) && NumberEnd(t, j) == |t|
    ensures var u := WithoutCommas(t); AfterSign(u, 0) == j && DigitAt(u, j) && NumberEnd(u, j) == |u|
  {
    var r := RunEnd(t, j + 1, true);
    ThreeParts(t, j + 1, r);
    NumberSplit(t, j, r);
    HeadSign(t, j);
    StrippedWhole(t[..j + 1], t[j + 1..r], t[r..], j);
  }

  /** A whole number is not mistaken for a date. */
  lemma NumberIsNoDate(u: string, j: nat)
    requires j == AfterSign(u, 0) && DigitAt(u, j) && NumberEnd(u, j) == |u|
    ensures !Shape(u, 0, "dddd-dd-dd")
  {
    if Shape(u, 0, "dddd-dd-dd") {
      DateChars(u);
      RunOver(u, 1, 4);
      assert false;
    }
  }

  lemma {:induction false} ShapeAt(s: string, i: nat, p: string)
    requires Shape(s, i, p)
    ensures i <= |s| ==> i + |p| <= |s| && forall k :: 0 <= k < |p| ==> Fits(s[i + k], p[k])
    decreases |p|
  {
    if p != [] {
      ShapeAt(s, i + 1, p[1..]);
      assert forall k :: 1 <= k < |p| ==> p[k] == p[1..][k - 1] && s[i + k] == s[(i + 1) + (k - 1)];
    }
  }

  lemma DateChars(u: string)
    requires Shape(u, 0, "dddd-dd-dd")
    ensures |u| >= 10 && (forall k :: 0 <= k < 4 ==> IsDigit(u[k])) && u[4] == '-'
  {
    var p := "dddd-dd-dd";
    ShapeAt(u, 0, p);
    assert Fits(u[0], p[0]) && Fits(u[1], p[1]) && Fits(u[2], p[2]) && Fits(u[3], p[3]) && Fits(u[4], p[4]);
  }

  // ----- the fixed point -----

  /** A text that is one match and has no commas scans to itself. */
  lemma WholeMatch(u: string)
    requires u != "" && MatchEnd(u, 0) == |u| && CommaFree(u)
    ensures Literals(u) == [u]
  {
    StripNothing(u);
    assert u[0..|u|] == u;
    assert Cut(u, Ends(u), 0) == [u] + Cut(u, Ends(u), |u|);
    assert Tokens(u) == [u];
    assert Stripped(Tokens(u)) == [u];
    DedupDistinct([u]);
  }

  lemma WholeToken(t: string)
    requires t != "" && MatchEnd(t, 0) == |t|
    ensures WithoutCommas(t) != "" && MatchEnd(WithoutCommas(t), 0) == |WithoutCommas(t)|
  {
    if Shape(t, 0, "dddd-dd-dd") {
      DateCommas(t);
      StripNothing(t);
    } else {
      StrippedNumber(t, AfterSign(t, 0));
      NumberIsNoDate(WithoutCommas(t), AfterSign(t, 0));
    }
  }

  lemma {:induction false} CutMembers(s: string, ends: nat -> nat, i: nat, t: string)
    requires i <= |s| && t in Cut(s, ends, i)
    ensures exists k :: i <= k < ends(k) <= |s| && t == s[k..ends(k)]
    decreases |s| - i
  {
    if i < ends(i) <= |s| {
      if t != s[i..ends(i)] {
        CutMembers(s, ends, ends(i), t);
      }
    } else {
      CutMembers(s, ends, i + 1, t);
    }
  }

  lemma TokenIsWhole(s: string, t: string)
    requires t in Tokens(s)
    ensures t != "" && MatchEnd(t, 0) == |t|
  {
    CutMembers(s, Ends(s), 0, t);
    var k :| 0 <= k < Ends(s)(k) <= |s| && t == s[k..Ends(s)(k)];
    var b := s[k..];
    MatchFromStart(s, k, b);
    MatchTrunc(b, MatchEnd(b, 0));
    assert b[..MatchEnd(b, 0)] == t;
  }

  /** Scanning a literal again yields that literal. */
  lemma LiteralsRescan(s: string, literal: string)
    requires literal in Literals(s)
    ensures Literals(literal) == [literal]
  {
    DedupElements(Stripped(Tokens(s)));
    var i :| 0 <= i < |Tokens(s)| && Stripped(Tokens(s))[i] == literal;
    var t := Tokens(s)[i];
    TokenIsWhole(s, t);
    WholeToken(t);
    StripIsCommaFree(t);
    WholeMatch(literal);
  }

  lemma NoNumbers()
    ensures Literals("x") == []
  {
    assert Cut("x", Ends("x"), 0) == Cut("x", Ends("x"), 1) == [];
  }
}
