/**
 Backtracking regular expressions, and the numeric pattern as it is written.  The scanner is shown
 to find exactly what a backtracking matcher finds with that pattern.
 */
module Regex {
  import opened Sequences
  import opened Scanner

  datatype Regex =
    | Class(accepts: char -> bool)
    | Then(first: Regex, second: Regex)
    | Or(left: Regex, right: Regex)
    | Opt(body: Regex)
    | Star(each: char -> bool)
    | NotAfter(before: char -> bool)

  /** Every position at which a match from `i` can end, in the order in which a greedy matcher tries them. */
  function Ends(r: Regex, s: string, i: nat): (ends: seq<nat>)
    requires i <= |s|
    ensures forall k :: 0 <= k < |ends| ==> i <= ends[k] <= |s|
    decreases r, |s| - i
  {
    match r
    case Class(accepts) => if i < |s| && accepts(s[i]) then [i + 1] else []
    case Then(a, b) => EndsAfter(b, s, i, Ends(a, s, i))
    case Or(a, b) => Ends(a, s, i) + Ends(b, s, i)
    case Opt(a) => Ends(a, s, i) + [i]
    case Star(each) => if i < |s| && each(s[i]) then Ends(r, s, i + 1) + [i] else [i]
    case NotAfter(before) => if i > 0 && before(s[i - 1]) then [] else [i]
  }

  /** The ends of `r` from each of the given positions in turn. */
  function EndsAfter(r: Regex, s: string, i: nat, from: seq<nat>): (ends: seq<nat>)
    requires i <= |s| && forall k :: 0 <= k < |from| ==> i <= from[k] <= |s|
    ensures forall k :: 0 <= k < |ends| ==> i <= ends[k] <= |s|
    decreases r, |s| + 1, |from|
  {
    if from == [] then [] else Ends(r, s, from[0]) + EndsAfter(r, s, i, from[1..])
  }

  /** The end that the matcher settles on. */
  function FirstEnd(r: Regex, s: string, i: nat): (end: Option<nat>)
    requires i <= |s|
    ensures end.Some? ==> i <= end.value <= |s|
  {
    if Ends(r, s, i) == [] then None else Some(Ends(r, s, i)[0])
  }

  /** `re.findall` for a pattern without empty matches. */
  function FindAll(r: Regex, s: string, i: nat): seq<string>
    requires i <= |s|
    decreases |s| - i
  {
    if i == |s| then []
    else match FirstEnd(r, s, i)
      case Some(e) => if e > i then [s[i..e]] + FindAll(r, s, e) else FindAll(r, s, i + 1)
      case None => FindAll(r, s, i + 1)
  }

  // ----- the numeric pattern -----

  function One(p: char): Regex { Class(c => Fits(c, p)) }

  /** The characters of a shape, one after the other. */
  function Shaped(p: string): Regex
    requires p != ""
  {
    if |p| == 1 then One(p[0]) else Then(One(p[0]), Shaped(p[1..]))
  }

  const DIGIT := Class(IsDigit)
  const SIGN := Class(c => c == '-' || c == '+')
  const FRACTION := Then(One('.'), Then(DIGIT, Star(IsDigit)))
  const ZONE := Or(One('Z'), Then(SIGN, Shaped("dd:dd")))
  const TIME := Then(Shaped("Tdd:dd:dd"), Then(Opt(FRACTION), Opt(ZONE)))
  const DATE := Then(Shaped("dddd-dd-dd"), Opt(TIME))
  const NUMBER :=
    Then(Opt(SIGN), Then(DIGIT, Then(Star(c => IsDigit(c) || c == ','), Then(Opt(FRACTION), Opt(One('%'))))))
  const NUMERIC := Then(NotAfter(c => IsWord(c) || c == '.'), Or(DATE, NUMBER))

  // ----- first ends -----

  /** A first end followed by a first end is a first end. */
  lemma FirstThen(a: Regex, b: Regex, s: string, i: nat)
    requires i <= |s| && FirstEnd(a, s, i).Some? && FirstEnd(b, s, FirstEnd(a, s, i).value).Some?
    ensures FirstEnd(Then(a, b), s, i) == FirstEnd(b, s, FirstEnd(a, s, i).value)
  {
    var from := Ends(a, s, i);
    assert EndsAfter(b, s, i, from) == Ends(b, s, from[0]) + EndsAfter(b, s, i, from[1..]);
  }

  /** With a single way through the first part there is nothing to go back to. */
  lemma OnlyThen(a: Regex, b: Regex, s: string, i: nat)
    requires i <= |s| && |Ends(a, s, i)| <= 1
    ensures Ends(Then(a, b), s, i) == if Ends(a, s, i) == [] then [] else Ends(b, s, Ends(a, s, i)[0])
  {
    var from := Ends(a, s, i);
    if from != [] {
      assert from[1..] == [];
      assert EndsAfter(b, s, i, from[1..]) == [];
    }
  }

  lemma SingleThen(a: Regex, b: Regex, s: string, i: nat, e: nat)
    requires i <= |s| && e <= |s| && Ends(a, s, i) == [e]
    ensures FirstEnd(Then(a, b), s, i) == FirstEnd(b, s, e)
  {
    OnlyThen(a, b, s, i);
  }

  lemma FirstOpt(a: Regex, s: string, i: nat)
    requires i <= |s|
    ensures FirstEnd(Opt(a), s, i) == Some(if FirstEnd(a, s, i).Some? then FirstEnd(a, s, i).value else i)
  {}

  lemma ShapedCons(c: char, p: string, s: string, i: nat)
    requires p != "" && i <= |s|
    ensures Shaped([c] + p) == Then(One(c), Shaped(p))
    ensures Shape(s, i, [c] + p) <==> i < |s| && Fits(s[i], c) && Shape(s, i + 1, p)
  {
    assert ([c] + p)[1..] == p;
  }

  lemma {:induction false} ShapedEnds(p: string, s: string, i: nat)
    requires p != "" && i <= |s|
    ensures Ends(Shaped(p), s, i) == if Shape(s, i, p) then [i + |p|] else []
    decreases |p|
  {
    OneEnds(p[0], s, i);
    if |p| > 1 {
      ShapedCons(p[0], p[1..], s, i);
      assert p == [p[0]] + p[1..];
      OnlyThen(One(p[0]), Shaped(p[1..]), s, i);
      if i < |s| {
        ShapedEnds(p[1..], s, i + 1);
      }
    } else {
      assert p[1..] == "";
    }
  }

  lemma {:induction false} StarFirst(each: char -> bool, commas: bool, s: string, i: nat)
    requires i <= |s| && forall c :: each(c) <==> IsDigit(c) || (commas && c == ',')
    ensures FirstEnd(Star(each), s, i) == Some(RunEnd(s, i, commas))
    decreases |s| - i
  {
    if i < |s| && each(s[i]) {
      StarFirst(each, commas, s, i + 1);
    }
  }

  lemma DigitsFirst(s: string, i: nat)
    requires i <= |s|
    ensures FirstEnd(Then(DIGIT, Star(IsDigit)), s, i) == if DigitAt(s, i) then Some(RunEnd(s, i, false)) else None
  {
    if DigitAt(s, i) {
      SingleThen(DIGIT, Star(IsDigit), s, i, i + 1);
      StarFirst(IsDigit, false, s, i + 1);
    } else {
      OnlyThen(DIGIT, Star(IsDigit), s, i);
    }
  }

  lemma PointThenDigit(s: string, i: nat)
    requires i <= |s|
    ensures Shape(s, i, ".d") <==> i < |s| && s[i] == '.' && DigitAt(s, i + 1)
  {
    assert ".d"[1..] == "d" && "d"[1..] == "";
    assert Shape(s, i + 1, "d") <==> DigitAt(s, i + 1);
  }

  lemma OneEnds(p: char, s: string, i: nat)
    requires i <= |s|
    ensures Ends(One(p), s, i) == if i < |s| && Fits(s[i], p) then [i + 1] else []
  {}

  lemma FractionFirst(s: string, i: nat)
    requires i <= |s|
    ensures FirstEnd(Opt(FRACTION), s, i) == Some(FractionEnd(s, i))
  {
    var digits := Then(DIGIT, Star(IsDigit));
    FirstOpt(FRACTION, s, i);
    OneEnds('.', s, i);
    OnlyThen(One('.'), digits, s, i);
    PointThenDigit(s, i);
    if i < |s| && s[i] == '.' {
      DigitsFirst(s, i + 1);
    }
  }

  lemma SignedShape(s: string, i: nat, sign: char, p: string)
    requires i <= |s| && sign != 'd'
    ensures Shape(s, i, [sign] + p) <==> i < |s| && s[i] == sign && Shape(s, i + 1, p)
  {
    assert ([sign] + p)[1..] == p;
  }

  lemma OffsetEnds(s: string, i: nat)
    requires i <= |s|
    ensures Ends(Then(SIGN, Shaped("dd:dd")), s, i) == if Shape(s, i, "+dd:dd") || Shape(s, i, "-dd:dd") then [i + 6]
      else []
  {
    OnlyThen(SIGN, Shaped("dd:dd"), s, i);
    SignedShape(s, i, '+', "dd:dd");
    SignedShape(s, i, '-', "dd:dd");
    assert ['+'] + "dd:dd" == "+dd:dd" && ['-'] + "dd:dd" == "-dd:dd";
    if i < |s| {
      ShapedEnds("dd:dd", s, i + 1);
    }
  }

  lemma ZoneFirst(s: string, i: nat)
    requires i <= |s|
    ensures FirstEnd(Opt(ZONE), s, i) == Some(ZoneEnd(s, i))
  {
    FirstOpt(ZONE, s, i);
    OneEnds('Z', s, i);
    SignedShape(s, i, 'Z', "");
    assert ['Z'] + "" == "Z";
    OffsetEnds(s, i);
  }

  lemma TimeFirst(s: string, i: nat)
    requires i <= |s|
    ensures FirstEnd(Opt(TIME), s, i) == Some(TimeEnd(s, i))
  {
    FirstOpt(TIME, s, i);
    ShapedThen("Tdd:dd:dd", Then(Opt(FRACTION), Opt(ZONE)), s, i);
    if Shape(s, i, "Tdd:dd:dd") {
      FractionFirst(s, i + 9);
      ZoneFirst(s, FractionEnd(s, i + 9));
      FirstThen(Opt(FRACTION), Opt(ZONE), s, i + 9);
    }
  }

  lemma ShapedThen(p: string, b: Regex, s: string, i: nat)
    requires p != "" && i <= |s|
    ensures Shape(s, i, p) ==> i + |p| <= |s| && FirstEnd(Then(Shaped(p), b), s, i) == FirstEnd(b, s, i + |p|)
    ensures !Shape(s, i, p) ==> FirstEnd(Then(Shaped(p), b), s, i) == None
  {
    ShapedEnds(p, s, i);
    if Shape(s, i, p) {
      ShapeFits(s, i, p);
      SingleThen(Shaped(p), b, s, i, i + |p|);
    } else {
      OnlyThen(Shaped(p), b, s, i);
    }
  }

  lemma DatedFirst(p: string, s: string, i: nat)
    requires p != "" && |p| == 10 && i <= |s|
    ensures Shape(s, i, p) ==> i + 10 <= |s| && FirstEnd(Then(Shaped(p), Opt(TIME)), s, i) == Some(TimeEnd(s, i + 10))
    ensures !Shape(s, i, p) ==> FirstEnd(Then(Shaped(p), Opt(TIME)), s, i) == None
  {
    ShapedThen(p, Opt(TIME), s, i);
    if Shape(s, i, p) {
      TimeFirst(s, i + 10);
    }
  }

  lemma DateFirst(s: string, i: nat)
    requires i <= |s|
    ensures Shape(s, i, "dddd-dd-dd") ==> i + 10 <= |s| && FirstEnd(DATE, s, i) == Some(TimeEnd(s, i + 10))
    ensures !Shape(s, i, "dddd-dd-dd") ==> FirstEnd(DATE, s, i) == None
  {
    DatedFirst("dddd-dd-dd", s, i);
  }

  const UNSIGNED := Then(DIGIT, Then(Star(c => IsDigit(c) || c == ','), Then(Opt(FRACTION), Opt(One('%')))))

  lemma UnsignedFirst(s: string, j: nat)
    requires j <= |s|
    ensures FirstEnd(UNSIGNED, s, j) == if DigitAt(s, j) then Some(NumberEnd(s, j)) else None
  {
    var tail := Then(Opt(FRACTION), Opt(One('%')));
    var run := Star(c => IsDigit(c) || c == ',');
    OnlyThen(DIGIT, Then(run, tail), s, j);
    if DigitAt(s, j) {
      StarFirst(run.each, true, s, j + 1);
      var k := RunEnd(s, j + 1, true);
      FractionFirst(s, k);
      FirstOpt(One('%'), s, FractionEnd(s, k));
      FirstThen(Opt(FRACTION), Opt(One('%')), s, k);
      FirstThen(run, tail, s, j + 1);
    }
  }

  lemma TwoWays(b: Regex, s: string, i: nat, j: nat)
    requires i <= j <= |s|
    ensures EndsAfter(b, s, i, [j, i]) == Ends(b, s, j) + Ends(b, s, i)
  {
    assert [j, i][1..] == [i] && [i][1..] == [];
    assert EndsAfter(b, s, i, [i]) == Ends(b, s, i) + EndsAfter(b, s, i, []);
    assert EndsAfter(b, s, i, [j, i]) == Ends(b, s, j) + EndsAfter(b, s, i, [i]);
  }

  lemma SignEnds(s: string, i: nat)
    requires i <= |s|
    ensures Ends(Opt(SIGN), s, i) == if AfterSign(s, i) == i then [i] else [AfterSign(s, i), i]
  {}

  /** The optional sign is never given up: what follows a sign that is not followed by a digit is no number. */
  lemma NumberFirst(s: string, i: nat)
    requires i <= |s|
    ensures FirstEnd(NUMBER, s, i) == if DigitAt(s, AfterSign(s, i)) then Some(NumberEnd(s, AfterSign(s, i))) else None
  {
    var j := AfterSign(s, i);
    UnsignedFirst(s, i);
    UnsignedFirst(s, j);
    SignEnds(s, i);
    assert NUMBER == Then(Opt(SIGN), UNSIGNED);
    if j == i {
      OnlyThen(Opt(SIGN), UNSIGNED, s, i);
    } else {
      assert !DigitAt(s, i);
      TwoWays(UNSIGNED, s, i, j);
    }
  }

  /** At every position the scanner and the backtracking matcher agree. */
  lemma NumericFirst(s: string, i: nat)
    requires i <= |s|
    ensures FirstEnd(NUMERIC, s, i) == if MatchEnd(s, i) > i then Some(MatchEnd(s, i)) else None
  {
    var guard := NotAfter(c => IsWord(c) || c == '.');
    assert Boundary(s, i) <==> Ends(guard, s, i) == [i];
    OnlyThen(guard, Or(DATE, NUMBER), s, i);
    DateFirst(s, i);
    NumberFirst(s, i);
  }

  lemma {:induction false} FindAllIsCut(r: Regex, s: string, ends: nat -> nat, i: nat)
    requires i <= |s|
    requires forall k :: 0 <= k <= |s| ==>
      ends(k) <= |s| && FirstEnd(r, s, k) == if ends(k) > k then Some(ends(k)) else None
    ensures FindAll(r, s, i) == Cut(s, ends, i)
    decreases |s| - i
  {
    if i < |s| {
      FindAllIsCut(r, s, ends, if ends(i) > i then ends(i) else i + 1);
    }
  }

  /** The scanner lists what `re.findall` lists for the pattern. */
  lemma ScannerIsFindAll(s: string)
    ensures Tokens(s) == FindAll(NUMERIC, s, 0)
  {
    forall k | 0 <= k <= |s|
      ensures FirstEnd(NUMERIC, s, k) == if Scanner.Ends(s)(k) > k then Some(Scanner.Ends(s)(k)) else None
    {
      NumericFirst(s, k);
    }
    FindAllIsCut(NUMERIC, s, Scanner.Ends(s), 0);
  }
}
