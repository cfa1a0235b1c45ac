/**
 The numeric tokenizer: a deterministic reading of the regular expression behind
 `numeric_literals`.  No part of that expression ever backtracks into an earlier
 greedy choice, so one end position per start position describes it exactly.
 */
module Scanner {
  import opened Sequences

  predicate IsDigit(c: char) { '0' <= c <= '9' }

  predicate IsWord(c: char) {
    IsDigit(c) || 'a' <= c <= 'z' || 'A' <= c <= 'Z' || c == '_'
  }

  /** In a shape, `d` stands for a digit and every other character for itself. */
  predicate Fits(c: char, p: char) {
    if p == 'd' then IsDigit(c) else c == p
  }

  predicate Shape(s: string, i: nat, p: string)
    decreases |s| - i
  {
    p == [] || (i < |s| && Fits(s[i], p[0]) && Shape(s, i + 1, p[1..]))
  }

  lemma {:induction false} ShapeFits(s: string, i: nat, p: string)
    requires Shape(s, i, p)
    ensures p != [] ==> i + |p| <= |s|
    decreases |p|
  {
    if p != [] {
      ShapeFits(s, i + 1, p[1..]);
    }
  }

  /** The negative look-behind: no word character and no point just before `i`. */
  predicate Boundary(s: string, i: nat) {
    i == 0 || (i <= |s| && !IsWord(s[i - 1]) && s[i - 1] != '.')
  }

  function RunEnd(s: string, i: nat, commas: bool): (e: nat)
    requires i <= |s|
    ensures i <= e <= |s|
    decreases |s| - i
  {
    if i < |s| && (IsDigit(s[i]) || (commas && s[i] == ',')) then RunEnd(s, i + 1, commas) else i
  }

  function FractionEnd(s: string, i: nat): (e: nat)
    requires i <= |s|
    ensures i <= e <= |s|
  {
    if Shape(s, i, ".d") then RunEnd(s, i + 1, false) else i
  }

  function ZoneEnd(s: string, i: nat): (e: nat)
    requires i <= |s|
    ensures i <= e <= |s|
  {
    if Shape(s, i, "Z") then i + 1
    else if Shape(s, i, "+dd:dd") then ShapeFits(s, i, "+dd:dd"); i + 6
    else if Shape(s, i, "-dd:dd") then ShapeFits(s, i, "-dd:dd"); i + 6
    else i
  }

  function TimeEnd(s: string, i: nat): (e: nat)
    requires i <= |s|
    ensures i <= e <= |s|
  {
    if Shape(s, i, "Tdd:dd:dd") then
      ShapeFits(s, i, "Tdd:dd:dd");
      ZoneEnd(s, FractionEnd(s, i + 9))
    else i
  }

  /** The index of the first digit of a signed number starting at `i`. */
  function AfterSign(s: string, i: nat): nat
  {
    if i < |s| && (s[i] == '-' || s[i] == '+') then i + 1 else i
  }

  predicate DigitAt(s: string, i: nat) { i < |s| && IsDigit(s[i]) }

  /** The end of a number whose first digit is at `j`. */
  function NumberEnd(s: string, j: nat): (e: nat)
    requires j < |s|
    ensures j < e <= |s|
  {
    var k := FractionEnd(s, RunEnd(s, j + 1, true));
    if k < |s| && s[k] == '%' then k + 1 else k
  }

  /** Where the match starting at `i` ends; `i` itself when nothing matches there. */
  function MatchEnd(s: string, i: nat): (e: nat)
    requires i <= |s|
    ensures i <= e <= |s|
  {
    if !Boundary(s, i) then i
    else if Shape(s, i, "dddd-dd-dd") then
      ShapeFits(s, i, "dddd-dd-dd");
      TimeEnd(s, i + 10)
    else if DigitAt(s, AfterSign(s, i)) then NumberEnd(s, AfterSign(s, i))
    else i
  }

  /** The non-overlapping pieces of `s` from `i` on, when a piece starting at `k` ends at `ends(k)`. */
  function Cut(s: string, ends: nat -> nat, i: nat): seq<string>
    requires i <= |s|
    decreases |s| - i
  {
    if i == |s| then []
    else if i < ends(i) <= |s| then [s[i..ends(i)]] + Cut(s, ends, ends(i))
    else Cut(s, ends, i + 1)
  }

  function Ends(s: string): nat -> nat {
    (i: nat) => if i <= |s| then MatchEnd(s, i) else i
  }

  /** The matches that `re.findall` lists. */
  function Tokens(s: string): seq<string> { Cut(s, Ends(s), 0) }

  function WithoutCommas(token: string): string {
    if token == "" then ""
    else if token[0] == ',' then WithoutCommas(token[1..])
    else [token[0]] + WithoutCommas(token[1..])
  }

  function Stripped(tokens: seq<string>): (r: seq<string>)
    ensures |r| == |tokens|
  {
    seq(|tokens|, i requires 0 <= i < |tokens| => WithoutCommas(tokens[i]))
  }

  function Literals(s: string): seq<string> {
    Dedup(Stripped(Tokens(s)))
  }

  // ----- matching never looks past a semicolon -----

  predicate Sealed(t: string) { t == "" || t[0] == ';' }

  lemma {:induction false} ShapeLocal(a: string, t: string, i: nat, p: string)
    requires i <= |a| && Sealed(t) && ';' !in p
    ensures Shape(a + t, i, p) == Shape(a, i, p)
    decreases |p|
  {
    if p != [] && i < |a| {
      ShapeLocal(a, t, i + 1, p[1..]);
    }
  }

  lemma {:induction false} RunLocal(a: string, t: string, i: nat, commas: bool)
    requires i <= |a| && Sealed(t)
    ensures RunEnd(a + t, i, commas) == RunEnd(a, i, commas)
    decreases |a| - i
  {
    if i < |a| {
      RunLocal(a, t, i + 1, commas);
    }
  }

  lemma FractionLocal(a: string, t: string, i: nat)
    requires i <= |a| && Sealed(t)
    ensures FractionEnd(a + t, i) == FractionEnd(a, i)
  {
    ShapeLocal(a, t, i, ".d");
    if i < |a| {
      RunLocal(a, t, i + 1, false);
    }
  }

  lemma TimeLocal(a: string, t: string, i: nat)
    requires i <= |a| && Sealed(t)
    ensures TimeEnd(a + t, i) == TimeEnd(a, i)
  {
    ShapeLocal(a, t, i, "Tdd:dd:dd");
    if Shape(a, i, "Tdd:dd:dd") {
      ShapeFits(a, i, "Tdd:dd:dd");
      FractionLocal(a, t, i + 9);
      var k := FractionEnd(a, i + 9);
      ShapeLocal(a, t, k, "Z");
      ShapeLocal(a, t, k, "+dd:dd");
      ShapeLocal(a, t, k, "-dd:dd");
    }
  }

  lemma NumberLocal(a: string, t: string, j: nat)
    requires j < |a| && Sealed(t)
    ensures NumberEnd(a + t, j) == NumberEnd(a, j)
  {
    RunLocal(a, t, j + 1, true);
    FractionLocal(a, t, RunEnd(a, j + 1, true));
  }

  lemma MatchLocal(a: string, t: string, i: nat)
    requires i <= |a| && Sealed(t)
    ensures MatchEnd(a + t, i) == MatchEnd(a, i)
  {
    ShapeLocal(a, t, i, "dddd-dd-dd");
    if Shape(a, i, "dddd-dd-dd") {
      ShapeFits(a, i, "dddd-dd-dd");
      TimeLocal(a, t, i + 10);
    }
    var j := AfterSign(a, i);
    assert AfterSign(a + t, i) == j <= |a|;
    if j < |a| {
      NumberLocal(a, t, j);
    }
  }

  lemma {:induction false} CutSplit(a: string, t: string, f: nat -> nat, g: nat -> nat, i: nat)
    requires i <= |a| && forall k :: 0 <= k <= |a| ==> f(k) == g(k) <= |a|
    ensures Cut(a + t, f, i) == Cut(a, g, i) + Cut(a + t, f, |a|)
    decreases |a| - i
  {
    if i < |a| {
      if i < g(i) {
        assert (a + t)[i..g(i)] == a[i..g(i)];
        CutSplit(a, t, f, g, g(i));
      } else {
        CutSplit(a, t, f, g, i + 1);
      }
    }
  }

  lemma EndsLocal(a: string, t: string)
    requires Sealed(t)
    ensures forall k :: 0 <= k <= |a| ==> Ends(a + t)(k) == Ends(a)(k) <= |a|
  {
    forall k | 0 <= k <= |a| ensures Ends(a + t)(k) == Ends(a)(k) <= |a| {
      MatchLocal(a, t, k);
    }
  }

  // ----- what precedes a space does not influence what follows it -----

  /** `b` is what is left of `s` from `d` on. */
  predicate Aligned(s: string, d: nat, b: string) {
    |s| == d + |b| && forall k :: 0 <= k < |b| ==> s[d + k] == b[k]
  }

  lemma {:induction false} ShapeShift(s: string, d: nat, b: string, i: nat, shape: string)
    requires Aligned(s, d, b)
    ensures Shape(s, d + i, shape) == Shape(b, i, shape)
    decreases |shape|
  {
    if shape != [] && i < |b| {
      ShapeShift(s, d, b, i + 1, shape[1..]);
    }
  }

  lemma {:induction false} RunShift(s: string, d: nat, b: string, i: nat, commas: bool)
    requires Aligned(s, d, b) && i <= |b|
    ensures RunEnd(s, d + i, commas) == d + RunEnd(b, i, commas)
    decreases |b| - i
  {
    if i < |b| {
      RunShift(s, d, b, i + 1, commas);
    }
  }

  lemma FractionShift(s: string, d: nat, b: string, i: nat)
    requires Aligned(s, d, b) && i <= |b|
    ensures FractionEnd(s, d + i) == d + FractionEnd(b, i)
  {
    ShapeShift(s, d, b, i, ".d");
    if i < |b| {
      RunShift(s, d, b, i + 1, false);
    }
  }

  lemma TimeShift(s: string, d: nat, b: string, i: nat)
    requires Aligned(s, d, b) && i <= |b|
    ensures TimeEnd(s, d + i) == d + TimeEnd(b, i)
  {
    ShapeShift(s, d, b, i, "Tdd:dd:dd");
    if Shape(b, i, "Tdd:dd:dd") {
      ShapeFits(b, i, "Tdd:dd:dd");
      FractionShift(s, d, b, i + 9);
      var k := FractionEnd(b, i + 9);
      ShapeShift(s, d, b, k, "Z");
      ShapeShift(s, d, b, k, "+dd:dd");
      ShapeShift(s, d, b, k, "-dd:dd");
    }
  }

  lemma NumberShift(s: string, d: nat, b: string, j: nat)
    requires Aligned(s, d, b) && j < |b|
    ensures NumberEnd(s, d + j) == d + NumberEnd(b, j)
  {
    RunShift(s, d, b, j + 1, true);
    FractionShift(s, d, b, RunEnd(b, j + 1, true));
  }

  lemma MatchShift(s: string, d: nat, b: string, i: nat)
    requires Aligned(s, d, b) && i <= |b| && d > 0 && s[d - 1] == ' '
    ensures MatchEnd(s, d + i) == d + MatchEnd(b, i)
  {
    assert i > 0 ==> s[d + (i - 1)] == b[i - 1];
    ShapeShift(s, d, b, i, "dddd-dd-dd");
    if Boundary(b, i) {
      if Shape(b, i, "dddd-dd-dd") {
        ShapeFits(b, i, "dddd-dd-dd");
        TimeShift(s, d, b, i + 10);
      } else {
        var j := AfterSign(b, i);
        assert AfterSign(s, d + i) == d + j;
        assert DigitAt(s, d + j) == DigitAt(b, j);
        if DigitAt(b, j) {
          NumberShift(s, d, b, j);
        }
      }
    }
  }

  lemma {:induction false} CutShift(s: string, d: nat, b: string, f: nat -> nat, g: nat -> nat, i: nat)
    requires Aligned(s, d, b) && i <= |b| && forall k :: 0 <= k <= |b| ==> f(d + k) == d + g(k)
    ensures Cut(s, f, d + i) == Cut(b, g, i)
    decreases |b| - i
  {
    if i < |b| {
      if i < g(i) <= |b| {
        assert s[d + i..d + g(i)] == b[i..g(i)];
        CutShift(s, d, b, f, g, g(i));
      } else {
        CutShift(s, d, b, f, g, i + 1);
      }
    }
  }

  lemma EndsShift(s: string, d: nat, b: string)
    requires Aligned(s, d, b) && d > 0 && s[d - 1] == ' '
    ensures forall k :: 0 <= k <= |b| ==> Ends(s)(d + k) == d + Ends(b)(k)
  {
    forall k | 0 <= k <= |b| ensures Ends(s)(d + k) == d + Ends(b)(k) {
      MatchShift(s, d, b, k);
    }
  }

  lemma TokensShift(s: string, d: nat, b: string)
    requires Aligned(s, d, b) && d > 0 && s[d - 1] == ' '
    ensures Cut(s, Ends(s), d) == Tokens(b)
  {
    EndsShift(s, d, b);
    CutShift(s, d, b, Ends(s), Ends(b), 0);
  }

  predicate DigitFree(s: string) { forall k :: 0 <= k < |s| ==> !IsDigit(s[k]) }

  lemma NoMatchWithoutDigit(s: string, i: nat)
    requires i < |s| && !IsDigit(s[i]) && (s[i] == ' ' || (i + 1 < |s| ==> !IsDigit(s[i + 1])))
    ensures MatchEnd(s, i) == i
  {}

  lemma {:induction false} CutSkip(s: string, f: nat -> nat, i: nat, n: nat)
    requires i <= n <= |s| && forall k :: i <= k < n ==> f(k) == k
    ensures Cut(s, f, i) == Cut(s, f, n)
    decreases n - i
  {
    if i < n {
      CutSkip(s, f, i + 1, n);
    }
  }

  lemma SkipDigitFree(s: string, i: nat, n: nat)
    requires i <= n <= |s| && forall k :: i <= k < n ==> !IsDigit(s[k])
    requires i < n ==> s[n - 1] == ' '
    ensures Cut(s, Ends(s), i) == Cut(s, Ends(s), n)
  {
    forall k | i <= k < n ensures Ends(s)(k) == k {
      NoMatchWithoutDigit(s, k);
    }
    CutSkip(s, Ends(s), i, n);
  }

  // ----- the homomorphism -----

  function JoinSemicolon(ds: seq<string>): string {
    if ds == [] then ""
    else if |ds| == 1 then ds[0]
    else ds[0] + ("; " + JoinSemicolon(ds[1..]))
  }

  function AllTokens(ds: seq<string>): seq<string> {
    if ds == [] then [] else Tokens(ds[0]) + AllTokens(ds[1..])
  }

  lemma TokensOfPair(a: string, rest: string)
    ensures Tokens(a + ("; " + rest)) == Tokens(a) + Tokens(rest)
  {
    var s := a + ("; " + rest);
    EndsLocal(a, "; " + rest);
    CutSplit(a, "; " + rest, Ends(s), Ends(a), 0);
    assert s[|a|] == ';' && s[|a| + 1] == ' ';
    SkipDigitFree(s, |a|, |a| + 2);
    TokensShift(s, |a| + 2, rest);
  }

  /** Scanning a joined text is scanning its parts one after the other. */
  lemma {:induction false} TokensOfJoin(ds: seq<string>)
    ensures Tokens(JoinSemicolon(ds)) == AllTokens(ds)
  {
    if |ds| == 1 {
      assert AllTokens(ds) == Tokens(ds[0]) + [];
    } else if |ds| > 1 {
      TokensOfPair(ds[0], JoinSemicolon(ds[1..]));
      TokensOfJoin(ds[1..]);
    }
  }

  function LiteralLists(ds: seq<string>): seq<seq<string>> {
    seq(|ds|, i requires 0 <= i < |ds| => Literals(ds[i]))
  }

  lemma StrippedConcat(a: seq<string>, b: seq<string>)
    ensures Stripped(a + b) == Stripped(a) + Stripped(b)
  {}

  lemma {:induction false} DedupAllTokens(seen: seq<string>, ds: seq<string>)
    ensures Dedup(seen + Stripped(AllTokens(ds))) == Dedup(seen + Flatten(LiteralLists(ds)))
    decreases |ds|
  {
    if ds != [] {
      var t, rest, lists := Stripped(Tokens(ds[0])), Stripped(AllTokens(ds[1..])), Flatten(LiteralLists(ds[1..]));
      StrippedConcat(Tokens(ds[0]), AllTokens(ds[1..]));
      assert LiteralLists(ds)[1..] == LiteralLists(ds[1..]);
      calc {
        Dedup(seen + Stripped(AllTokens(ds)));
        { ConcatAssociative(seen, t, rest); }
        Dedup((seen + t) + rest);
        { DedupAllTokens(seen + t, ds[1..]); }
        Dedup((seen + t) + lists);
        { DedupInfix(seen, t, lists); }
        Dedup(seen + Flatten(LiteralLists(ds)));
      }
    }
  }

  /**
   The literals of "Label: d1; d2; ..." under a digit-free label are the literals of
   d1, d2, ... in order, without repetitions.
   */
  lemma LabelledLiterals(caption: string, ds: seq<string>)
    requires DigitFree(caption)
    ensures Literals(caption + ": " + JoinSemicolon(ds)) == Dedup(Flatten(LiteralLists(ds)))
  {
    var p, b := caption + ": ", JoinSemicolon(ds);
    assert forall k :: 0 <= k < |caption| ==> (p + b)[k] == caption[k];
    SkipDigitFree(p + b, 0, |p|);
    TokensShift(p + b, |p|, b);
    TokensOfJoin(ds);
    DedupAllTokens([], ds);
    assert [] + Stripped(AllTokens(ds)) == Stripped(AllTokens(ds));
    assert [] + Flatten(LiteralLists(ds)) == Flatten(LiteralLists(ds));
  }
}
