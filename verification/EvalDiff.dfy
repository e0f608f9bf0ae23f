/**
  Comparing two eval runs: which cases moved, by how much, and what the verdict is.
  Rates, p-values and the delta are exact rationals.
 */
module EvalDiff {
  import opened Binomial
  import opened FisherTest
  import opened Names

  datatype Counts = Counts(passes: nat, runs: nat)

  /** One case's outcome in one run. */
  type CaseRun = c: Counts | 1 <= c.runs && c.passes <= c.runs witness Counts(0, 1)

  type RunSummary = map<string, CaseRun>

  datatype Movement = Movement(name: string, before: real, after: real)

  datatype Moves = Moves(
    regressed: seq<Movement>,
    recovered: seq<Movement>,
    unreliable: seq<Movement>,
    added: seq<string>,
    removed: seq<string>)

  datatype Verdict = Improved | Regression | Noise

  function Rate(c: CaseRun): real {
    c.passes as real / c.runs as real
  }

  predicate Flaky(c: CaseRun) {
    0 < c.passes < c.runs
  }

  // ---- what becomes of one case ------------------------------------------------

  datatype Fate = Unchanged | Regressed | Recovered | Unreliable | Added | Removed {
    function Reversed(): Fate {
      match this
      case Regressed => Recovered
      case Recovered => Regressed
      case Added => Removed
      case Removed => Added
      case _ => this
    }
  }

  predicate IsSignificant(before: CaseRun, after: CaseRun) {
    (if Rate(after) > Rate(before)
     then PValue(before.passes, before.runs - before.passes, after.passes, after.runs - after.passes)
     else PValue(after.passes, after.runs - after.passes, before.passes, before.runs - before.passes))
    <= SIGNIFICANCE
  }

  function Judge(before: CaseRun, after: CaseRun): Fate {
    if Rate(before) == Rate(after) then Unchanged
    else if (Flaky(before) || Flaky(after)) && !IsSignificant(before, after) then Unreliable
    else if Rate(after) < Rate(before) then Regressed
    else Recovered
  }

  function FateOf(name: string, base: RunSummary, feature: RunSummary): Fate
    requires name in base || name in feature
  {
    if name !in base then Added
    else if name !in feature then Removed
    else Judge(base[name], feature[name])
  }

  // ---- the fate in whole numbers ------------------------------------------------

  /** A rate is the share of passes. */
  lemma RateExactly(c: CaseRun)
    ensures Rate(c) * c.runs as real == c.passes as real
  {
  }

  /** Rates compare as the cross products of passes and runs do. */
  lemma RateOrder(x: CaseRun, y: CaseRun)
    ensures Rate(x) < Rate(y) <==> x.passes * y.runs < y.passes * x.runs
    ensures Rate(x) == Rate(y) <==> x.passes * y.runs == y.passes * x.runs
  {
    RateExactly(x);
    RateExactly(y);
    RealOrder(Rate(x), Rate(y), x.passes, x.runs, y.passes, y.runs);
  }

  lemma RealOrder(p: real, q: real, a: nat, n: nat, c: nat, m: nat)
    requires n > 0 && m > 0 && p * n as real == a as real && q * m as real == c as real
    ensures p < q <==> a * m < c * n
    ensures p == q <==> a * m == c * n
  {
    var w := n as real * m as real;
    assert (a * m) as real == p * w by {
      assert (a * m) as real == a as real * m as real == (p * n as real) * m as real;
    }
    assert (c * n) as real == q * w by {
      assert (c * n) as real == c as real * n as real == (q * m as real) * n as real;
    }
    assert w > 0.0;
    assert p < q ==> p * w < q * w;
    assert q < p ==> q * w < p * w;
  }

  /** With `low` and `high` the runs of lower and higher rate: at least so many passes on the high side are rare. */
  ghost predicate Rare(low: CaseRun, high: CaseRun) {
    var passes := low.passes + high.passes;
    20 * Tail(low.runs, high.runs, passes, high.passes) <= Choose(low.runs + high.runs, passes)
  }

  /**
    A rise is significant exactly if, of all ways to deal the passes of both runs out over
    their attempts, at most one in twenty gives the later run as many as it had; a fall is
    judged as the rise it reverses.
   */
  lemma SignificantExactly(before: CaseRun, after: CaseRun)
    ensures before.passes * after.runs < after.passes * before.runs ==>
              (IsSignificant(before, after) <==> Rare(before, after))
    ensures after.passes * before.runs < before.passes * after.runs ==>
              (IsSignificant(before, after) <==> Rare(after, before))
  {
    hide Rate, PValue, Tail, Choose;
    RateOrder(before, after);
    RateOrder(after, before);
    SignificanceInIntegers(before.passes, before.runs - before.passes, after.passes, after.runs - after.passes);
    SignificanceInIntegers(after.passes, after.runs - after.passes, before.passes, before.runs - before.passes);
  }

  /** The case always passed, or never did. */
  predicate Solid(c: CaseRun) {
    c.passes == 0 || c.passes == c.runs
  }

  /**
    What becomes of a case, in whole numbers: it moved if the cross products differ, and a
    move is withheld exactly if one side wavered and the move is not rare.
   */
  lemma FateExactly(before: CaseRun, after: CaseRun)
    ensures
      var x, y := before.passes * after.runs, after.passes * before.runs;
      var solid := Solid(before) && Solid(after);
      && (Judge(before, after) == Unchanged <==> x == y)
      && (Judge(before, after) == Recovered <==> x < y && (solid || Rare(before, after)))
      && (Judge(before, after) == Regressed <==> y < x && (solid || Rare(after, before)))
      && (Judge(before, after) == Unreliable <==>
            (x < y && !solid && !Rare(before, after)) || (y < x && !solid && !Rare(after, before)))
  {
    hide Rate, IsSignificant, Rare;
    RateOrder(before, after);
    RateOrder(after, before);
    SignificantExactly(before, after);
  }

  /**
    The documented pair: four of seven to all seven is withheld; one of twenty to all twenty,
    or of any `n` from eleven on, is not.
   */
  lemma DocumentedFates(n: nat)
    ensures Judge(Counts(4, 7), Counts(7, 7)) == Unreliable
    ensures n >= 11 ==> Judge(Counts(1, n), Counts(n, n)) == Recovered
  {
    hide Judge, Tail, Choose, PValue;
    FateExactly(Counts(4, 7), Counts(7, 7));
    FourOfSevenToSevenOfSeven();
    if n >= 11 {
      FateExactly(Counts(1, n), Counts(n, n));
      OneToAll(n);
      Commute(1, n);
      ScaleLe(2, n, n);
    }
  }

  // ---- the moves of a listing of cases ---------------------------------------

  ghost predicate Listed(names: seq<string>, base: RunSummary, feature: RunSummary) {
    forall n :: n in names ==> n in base || n in feature
  }

  function Named(names: seq<string>, base: RunSummary, feature: RunSummary, fate: Fate): seq<string>
    requires Listed(names, base, feature)
  {
    if names == [] then []
    else
      var last := names[|names| - 1];
      Named(names[..|names| - 1], base, feature, fate)
      + if FateOf(last, base, feature) == fate then [last] else []
  }

  ghost predicate Shared(names: seq<string>, base: RunSummary, feature: RunSummary) {
    forall n :: n in names ==> n in base && n in feature
  }

  function Movements(names: seq<string>, base: RunSummary, feature: RunSummary): seq<Movement>
    requires Shared(names, base, feature)
  {
    seq(|names|, i requires 0 <= i < |names| =>
      Movement(names[i], Rate(base[names[i]]), Rate(feature[names[i]])))
  }

  /** A listed name is in the group of its own fate and in no other. */
  lemma {:induction false} NamedExactly(names: seq<string>, base: RunSummary, feature: RunSummary, fate: Fate)
    requires Listed(names, base, feature)
    ensures forall n :: n in Named(names, base, feature, fate) <==> n in names && FateOf(n, base, feature) == fate
  {
    if names != [] {
      NamedExactly(names[..|names| - 1], base, feature, fate);
      assert names == names[..|names| - 1] + [names[|names| - 1]];
    }
  }

  lemma NamedShared(names: seq<string>, base: RunSummary, feature: RunSummary, fate: Fate)
    requires Listed(names, base, feature) && fate in {Regressed, Recovered, Unreliable}
    ensures Shared(Named(names, base, feature, fate), base, feature)
  {
    NamedExactly(names, base, feature, fate);
  }

  ghost predicate IsMoves(moves: Moves, names: seq<string>, base: RunSummary, feature: RunSummary)
    requires Listed(names, base, feature)
  {
    NamedShared(names, base, feature, Regressed);
    NamedShared(names, base, feature, Recovered);
    NamedShared(names, base, feature, Unreliable);
    && moves.regressed == Movements(Named(names, base, feature, Regressed), base, feature)
    && moves.recovered == Movements(Named(names, base, feature, Recovered), base, feature)
    && moves.unreliable == Movements(Named(names, base, feature, Unreliable), base, feature)
    && moves.added == Named(names, base, feature, Added)
    && moves.removed == Named(names, base, feature, Removed)
  }

  /** `moves` is the classification of the two runs, in name order. */
  ghost predicate Classifies(moves: Moves, base: RunSummary, feature: RunSummary) {
    exists names :: Sorts(names, base.Keys + feature.Keys) && Listed(names, base, feature)
                    && IsMoves(moves, names, base, feature)
  }

  // ---- the code -------------------------------------------------------------------

  method Significant(before: CaseRun, after: CaseRun) returns (s: bool)
    ensures s == IsSignificant(before, after)
    ensures before.passes * after.runs < after.passes * before.runs ==> s == Rare(before, after)
    ensures after.passes * before.runs < before.passes * after.runs ==> s == Rare(after, before)
  {
    hide Rate, PValue, Rare;
    SignificantExactly(before, after);
    var p;
    if Rate(after) > Rate(before) {
      p := FisherExactGreater(before.passes, before.runs - before.passes, after.passes, after.runs - after.passes);
    } else {
      p := FisherExactGreater(after.passes, after.runs - after.passes, before.passes, before.runs - before.passes);
    }
    return p <= SIGNIFICANCE;
  }

  method Classify(base: RunSummary, feature: RunSummary) returns (moves: Moves)
    ensures Classifies(moves, base, feature)
  {
    hide Rate, IsSignificant, Rare, IsMoves, Listed;
    var names := Sort(base.Keys + feature.Keys);
    SortedIsListed(names, base, feature);
    NoMoves(base, feature);
    var regressed, recovered, unreliable, added, removed := [], [], [], [], [];
    assert names[..0] == [];
    for i := 0 to |names|
      invariant Listed(names[..i], base, feature)
      invariant IsMoves(Moves(regressed, recovered, unreliable, added, removed), names[..i], base, feature)
    {
      var name := names[i];
      assert names[..i + 1] == names[..i] + [name];
      ListedPrefix(names, i + 1, base, feature);
      MovesNext(Moves(regressed, recovered, unreliable, added, removed), names[..i], name, base, feature);
      if name !in base {
        added := added + [name];
        continue;
      }
      if name !in feature {
        removed := removed + [name];
        continue;
      }
      var before, after := base[name], feature[name];
      if Rate(before) == Rate(after) {
        continue;
      }
      var movement := Movement(name, Rate(before), Rate(after));
      var withhold := false;
      if Flaky(before) || Flaky(after) {
        var s := Significant(before, after);
        withhold := !s;
      }
      if withhold {
        unreliable := unreliable + [movement];
      } else if Rate(after) < Rate(before) {
        regressed := regressed + [movement];
      } else {
        recovered := recovered + [movement];
      }
    }
    assert names[..|names|] == names;
    moves := Moves(regressed, recovered, unreliable, added, removed);
  }

  lemma SortedIsListed(names: seq<string>, base: RunSummary, feature: RunSummary)
    requires Sorts(names, base.Keys + feature.Keys)
    ensures Listed(names, base, feature)
  {
    forall n | n in names
      ensures n in base || n in feature
    {
      assert n in Members(names);
    }
  }

  lemma NoMoves(base: RunSummary, feature: RunSummary)
    ensures Listed([], base, feature) && IsMoves(Moves([], [], [], [], []), [], base, feature)
  {
  }

  lemma ListedPrefix(names: seq<string>, i: nat, base: RunSummary, feature: RunSummary)
    requires i <= |names| && Listed(names, base, feature)
    ensures Listed(names[..i], base, feature) && forall n :: n in names[..i] ==> n in base || n in feature
  {
  }

  /** The classification with one more case. */
  function Filed(moves: Moves, name: string, base: RunSummary, feature: RunSummary): Moves
    requires name in base || name in feature
  {
    match FateOf(name, base, feature)
    case Unchanged => moves
    case Added => moves.(added := moves.added + [name])
    case Removed => moves.(removed := moves.removed + [name])
    case Regressed => moves.(regressed := moves.regressed + [Moved(name, base, feature)])
    case Recovered => moves.(recovered := moves.recovered + [Moved(name, base, feature)])
    case Unreliable => moves.(unreliable := moves.unreliable + [Moved(name, base, feature)])
  }

  function Moved(name: string, base: RunSummary, feature: RunSummary): Movement
    requires name in base && name in feature
  {
    Movement(name, Rate(base[name]), Rate(feature[name]))
  }

  lemma MovesNext(moves: Moves, names: seq<string>, name: string, base: RunSummary, feature: RunSummary)
    requires Listed(names, base, feature) && IsMoves(moves, names, base, feature)
    requires Listed(names + [name], base, feature)
    ensures name in base || name in feature
    ensures IsMoves(Filed(moves, name, base, feature), names + [name], base, feature)
  {
    hide Judge, Rate;
    assert name in names + [name];
    NamedAppends(names, name, base, feature);
  }

  lemma NamedAppends(names: seq<string>, name: string, base: RunSummary, feature: RunSummary)
    requires Listed(names + [name], base, feature)
    ensures Listed(names, base, feature)
    ensures forall fate :: Named(names + [name], base, feature, fate)
              == Named(names, base, feature, fate) + if FateOf(name, base, feature) == fate then [name] else []
  {
    forall n | n in names
      ensures n in base || n in feature
    {
      assert n in names + [name];
    }
    assert (names + [name])[..|names|] == names;
  }
}
