/**
  The reliable delta, the verdict, and what the two are worth: conservation,
  direction reversal, and monotone evidence.
 */
module EvalVerdict {
  import opened FisherTest
  import opened Names
  import opened EvalDiff

  // ---- sums over case names --------------------------------------------------

  ghost function RateSum(names: set<string>, cases: RunSummary): real
    requires names <= cases.Keys
  {
    if names == {} then 0.0
    else
      var n :| n in names;
      Rate(cases[n]) + RateSum(names - {n}, cases)
  }

  /** The sum does not depend on the order the set is walked in. */
  lemma {:induction false} RateSumRemove(names: set<string>, cases: RunSummary, n: string)
    requires names <= cases.Keys && n in names
    ensures RateSum(names, cases) == Rate(cases[n]) + RateSum(names - {n}, cases)
    decreases names
  {
    var m :| m in names && RateSum(names, cases) == Rate(cases[m]) + RateSum(names - {m}, cases);
    if m != n {
      RateSumRemove(names - {m}, cases, n);
      RateSumRemove(names - {n}, cases, m);
      assert names - {m} - {n} == names - {n} - {m};
    }
  }

  function MovementSum(moves: seq<Movement>): real {
    if moves == [] then 0.0
    else MovementSum(moves[..|moves| - 1]) + (moves[|moves| - 1].after - moves[|moves| - 1].before)
  }

  function NamesIn(moves: seq<Movement>): set<string> {
    set m | m in moves :: m.name
  }

  /** The cases the verdict may use: in both runs, and not withheld. */
  function Reliable(base: RunSummary, feature: RunSummary, moves: Moves): set<string> {
    base.Keys * feature.Keys - NamesIn(moves.unreliable)
  }

  function Mean(sum: real, count: nat): real {
    if count == 0 then 0.0 else sum / count as real
  }

  lemma MeanExactly(sum: real, count: nat)
    ensures count == 0 ==> Mean(sum, count) == 0.0
    ensures count > 0 ==> Mean(sum, count) * count as real == sum
  {
  }

  lemma NothingSums(base: RunSummary, feature: RunSummary)
    ensures RateSum({}, base) == 0.0 == RateSum({}, feature)
  {
  }

  ghost function Delta(base: RunSummary, feature: RunSummary, shared: set<string>): real
    requires shared <= base.Keys * feature.Keys
  {
    Mean(RateSum(shared, feature), |shared|) - Mean(RateSum(shared, base), |shared|)
  }

  method Total(names: set<string>, cases: RunSummary) returns (sum: real)
    requires names <= cases.Keys
    ensures sum == RateSum(names, cases)
  {
    sum := 0.0;
    var todo := names;
    while todo != {}
      invariant todo <= names
      invariant sum + RateSum(todo, cases) == RateSum(names, cases)
      decreases todo
    {
      var n :| n in todo;
      RateSumRemove(todo, cases, n);
      sum := sum + Rate(cases[n]);
      todo := todo - {n};
    }
  }

  method ReliableDelta(base: RunSummary, feature: RunSummary, moves: Moves) returns (delta: real)
    ensures delta == Delta(base, feature, Reliable(base, feature, moves))
    ensures
      var shared := Reliable(base, feature, moves);
      && (shared == {} ==> delta == 0.0)
      && delta * |shared| as real == RateSum(shared, feature) - RateSum(shared, base)
  {
    var shared := Reliable(base, feature, moves);
    MeanExactly(RateSum(shared, feature), |shared|);
    MeanExactly(RateSum(shared, base), |shared|);
    NothingSums(base, feature);
    if shared == {} {
      return 0.0;
    }
    var before := Total(shared, base);
    var after := Total(shared, feature);
    delta := after / |shared| as real - before / |shared| as real;
  }

  /** Over a single case the delta is that case's movement. */
  lemma OneCaseDelta(base: RunSummary, feature: RunSummary, n: string)
    requires n in base && n in feature
    ensures Delta(base, feature, {n}) == Rate(feature[n]) - Rate(base[n])
  {
    hide Rate;
    RateSumRemove({n}, base, n);
    RateSumRemove({n}, feature, n);
    assert {n} - {n} == {};
    NothingSums(base, feature);
  }

  /** Cases that were solid and are now broken. */
  function HardRegressions(moves: Moves): seq<string> {
    BrokenNames(moves.regressed)
  }

  function BrokenNames(moves: seq<Movement>): seq<string> {
    if moves == [] then []
    else
      var m := moves[0];
      (if m.before == 1.0 && m.after == 0.0 then [m.name] else []) + BrokenNames(moves[1..])
  }

  function VerdictOf(delta: real, moves: Moves, threshold: real): Verdict {
    if HardRegressions(moves) != [] then Regression
    else if delta >= threshold then Improved
    else if delta <= -threshold then Regression
    else Noise
  }

  // ---- every case in exactly one group ----------------------------------------

  lemma MovementNames(names: seq<string>, base: RunSummary, feature: RunSummary)
    requires Shared(names, base, feature)
    ensures NamesIn(Movements(names, base, feature)) == Members(names)
  {
    var ms := Movements(names, base, feature);
    forall n | n in names
      ensures n in NamesIn(ms)
    {
      var i :| 0 <= i < |names| && names[i] == n;
      assert ms[i] in ms;
    }
  }

  /** The group of a case. */
  predicate InGroup(n: string, moves: Moves, fate: Fate) {
    match fate
    case Regressed => n in NamesIn(moves.regressed)
    case Recovered => n in NamesIn(moves.recovered)
    case Unreliable => n in NamesIn(moves.unreliable)
    case Added => n in moves.added
    case Removed => n in moves.removed
    case Unchanged =>
      && n !in NamesIn(moves.regressed) && n !in NamesIn(moves.recovered) && n !in NamesIn(moves.unreliable)
      && n !in moves.added && n !in moves.removed
  }

  /** Each case of either run is in the group of its fate, and in no other; groups hold nothing else. */
  lemma ExactlyOneGroup(base: RunSummary, feature: RunSummary, moves: Moves, n: string)
    requires Classifies(moves, base, feature)
    ensures n in base || n in feature ==>
              forall fate :: InGroup(n, moves, fate) <==> FateOf(n, base, feature) == fate
    ensures n !in base && n !in feature ==> InGroup(n, moves, Unchanged)
  {
    hide Judge;
    var names :| Sorts(names, base.Keys + feature.Keys) && Listed(names, base, feature)
                 && IsMoves(moves, names, base, feature);
    assert n in names <==> n in Members(names);
    NamedExactly(names, base, feature, Added);
    NamedExactly(names, base, feature, Removed);
    GroupNames(names, base, feature, Regressed);
    GroupNames(names, base, feature, Recovered);
    GroupNames(names, base, feature, Unreliable);
  }

  lemma GroupNames(names: seq<string>, base: RunSummary, feature: RunSummary, fate: Fate)
    requires Listed(names, base, feature) && fate in {Regressed, Recovered, Unreliable}
    ensures Shared(Named(names, base, feature, fate), base, feature)
    ensures forall n :: n in NamesIn(Movements(Named(names, base, feature, fate), base, feature))
                   <==> n in names && FateOf(n, base, feature) == fate
  {
    NamedShared(names, base, feature, fate);
    NamedExactly(names, base, feature, fate);
    MovementNames(Named(names, base, feature, fate), base, feature);
  }

  // ---- conservation -----------------------------------------------------------

  ghost function ReliableIn(names: seq<string>, base: RunSummary, feature: RunSummary): set<string>
    requires Listed(names, base, feature)
  {
    set n | n in names && n in base && n in feature && FateOf(n, base, feature) != Unreliable
  }

  ghost function GroupSum(names: seq<string>, base: RunSummary, feature: RunSummary, fate: Fate): real
    requires Listed(names, base, feature) && (fate == Regressed || fate == Recovered)
  {
    NamedShared(names, base, feature, fate);
    MovementSum(Movements(Named(names, base, feature, fate), base, feature))
  }

  ghost predicate Balanced(names: seq<string>, base: RunSummary, feature: RunSummary)
    requires Listed(names, base, feature)
  {
    var rs := ReliableIn(names, base, feature);
    && rs <= base.Keys * feature.Keys
    && RateSum(rs, feature) - RateSum(rs, base)
       == GroupSum(names, base, feature, Regressed) + GroupSum(names, base, feature, Recovered)
  }

  lemma {:induction false} Balance(names: seq<string>, base: RunSummary, feature: RunSummary)
    requires Ascending(names) && Listed(names, base, feature)
    ensures Balanced(names, base, feature)
  {
    if names == [] {
      assert ReliableIn(names, base, feature) == {};
    } else {
      var k := |names| - 1;
      Balance(names[..k], base, feature);
      assert names == names[..k] + [names[k]];
      LastIsNew(names);
      BalanceStep(names[..k], names[k], base, feature);
    }
  }

  lemma BalanceStep(names: seq<string>, n: string, base: RunSummary, feature: RunSummary)
    requires Listed(names, base, feature) && Listed(names + [n], base, feature) && n !in names
    requires Balanced(names, base, feature)
    ensures Balanced(names + [n], base, feature)
  {
    assert n in names + [n];
    GroupSumAppends(names, n, base, feature, Regressed);
    GroupSumAppends(names, n, base, feature, Recovered);
    ReliableAppends(names, n, base, feature);
    assert ReliableIn(names + [n], base, feature) <= base.Keys * feature.Keys;
  }

  lemma GroupSumAppends(names: seq<string>, n: string, base: RunSummary, feature: RunSummary, fate: Fate)
    requires Listed(names, base, feature) && Listed(names + [n], base, feature)
    requires n in base || n in feature
    requires fate == Regressed || fate == Recovered
    ensures GroupSum(names + [n], base, feature, fate)
         == GroupSum(names, base, feature, fate)
            + if FateOf(n, base, feature) == fate then Rate(feature[n]) - Rate(base[n]) else 0.0
  {
    NamedAppends(names, n, base, feature);
    NamedShared(names, base, feature, fate);
    MovementSumAppends(Named(names, base, feature, fate), n, base, feature);
  }

  lemma LastIsNew(names: seq<string>)
    requires names != [] && Ascending(names)
    ensures names[|names| - 1] !in names[..|names| - 1]
  {
    var k := |names| - 1;
    forall i | 0 <= i < k
      ensures names[..k][i] != names[k]
    {
      AscendingDistinct(names, i, k);
    }
  }

  lemma MovementSumAppends(names: seq<string>, n: string, base: RunSummary, feature: RunSummary)
    requires Shared(names, base, feature)
    ensures Movements(names + [], base, feature) == Movements(names, base, feature)
    ensures n in base && n in feature ==>
              && Shared(names + [n], base, feature)
              && MovementSum(Movements(names + [n], base, feature))
                 == MovementSum(Movements(names, base, feature)) + (Rate(feature[n]) - Rate(base[n]))
  {
    assert names + [] == names;
    if n in base && n in feature {
      var ms := Movements(names + [n], base, feature);
      assert ms[..|names|] == Movements(names, base, feature);
    }
  }

  lemma ReliableAppends(names: seq<string>, n: string, base: RunSummary, feature: RunSummary)
    requires Listed(names + [n], base, feature) && Listed(names, base, feature) && n !in names
    ensures
      var old_, new_ := ReliableIn(names, base, feature), ReliableIn(names + [n], base, feature);
      if n in base && n in feature && FateOf(n, base, feature) != Unreliable then
        && RateSum(new_, feature) == Rate(feature[n]) + RateSum(old_, feature)
        && RateSum(new_, base) == Rate(base[n]) + RateSum(old_, base)
      else new_ == old_
  {
    var old_, new_ := ReliableIn(names, base, feature), ReliableIn(names + [n], base, feature);
    if n in base && n in feature && FateOf(n, base, feature) != Unreliable {
      assert n in names + [n];
      assert new_ - {n} == old_;
      RateSumRemove(new_, feature, n);
      RateSumRemove(new_, base, n);
    } else {
      assert new_ == old_;
    }
  }

  /**
    The delta is the mean countable movement over the cases it is taken over, the shared ones
    that were not withheld: times their number it is the sum of the countable movements.
    Nothing flaky, added or removed leaks into it, and no movement is lost.
   */
  lemma Conservation(base: RunSummary, feature: RunSummary, moves: Moves, shared: set<string>, delta: real, sum: real)
    requires Classifies(moves, base, feature)
    requires shared == Reliable(base, feature, moves) && delta == Delta(base, feature, shared)
    requires sum == MovementSum(moves.regressed) + MovementSum(moves.recovered)
    ensures delta == Mean(sum, |shared|)
    ensures shared == {} ==> delta == 0.0
    ensures delta * |shared| as real == sum
    ensures forall n :: n in shared <==> n in base && n in feature && Judge(base[n], feature[n]) != Unreliable
  {
    hide Classifies, Mean, Delta, Judge;
    SumsBalance(base, feature, moves);
    DeltaFromSum(base, feature, shared, sum);
    MeanExactly(sum, |shared|);
    NothingSums(base, feature);
    SharedExactly(base, feature, moves);
  }

  lemma SharedExactly(base: RunSummary, feature: RunSummary, moves: Moves)
    requires Classifies(moves, base, feature)
    ensures forall n :: n in Reliable(base, feature, moves) <==>
              n in base && n in feature && Judge(base[n], feature[n]) != Unreliable
  {
    hide Classifies, Judge, FateOf;
    forall n | n in base && n in feature
      ensures n in NamesIn(moves.unreliable) <==> Judge(base[n], feature[n]) == Unreliable
    {
      ExactlyOneGroup(base, feature, moves, n);
      assert InGroup(n, moves, Unreliable) <==> FateOf(n, base, feature) == Unreliable;
      FateOfShared(n, base, feature);
    }
  }

  lemma FateOfShared(n: string, base: RunSummary, feature: RunSummary)
    requires n in base && n in feature
    ensures FateOf(n, base, feature) == Judge(base[n], feature[n])
  {
    hide Judge;
  }

  lemma DeltaFromSum(base: RunSummary, feature: RunSummary, shared: set<string>, sum: real)
    requires shared <= base.Keys * feature.Keys
    requires RateSum(shared, feature) - RateSum(shared, base) == sum
    ensures Delta(base, feature, shared) == Mean(sum, |shared|)
  {
    MeanOfDifference(RateSum(shared, feature), RateSum(shared, base), |shared|);
  }

  lemma MeanOfDifference(x: real, y: real, n: nat)
    ensures Mean(x, n) - Mean(y, n) == Mean(x - y, n)
  {
  }

  lemma SumsBalance(base: RunSummary, feature: RunSummary, moves: Moves)
    requires Classifies(moves, base, feature)
    ensures RateSum(Reliable(base, feature, moves), feature) - RateSum(Reliable(base, feature, moves), base)
         == MovementSum(moves.regressed) + MovementSum(moves.recovered)
  {
    var names :| Sorts(names, base.Keys + feature.Keys) && Listed(names, base, feature)
                 && IsMoves(moves, names, base, feature);
    ReliableIsListed(names, base, feature, moves);
    Balance(names, base, feature);
  }

  lemma ReliableIsListed(names: seq<string>, base: RunSummary, feature: RunSummary, moves: Moves)
    requires Sorts(names, base.Keys + feature.Keys) && Listed(names, base, feature)
    requires IsMoves(moves, names, base, feature)
    ensures Reliable(base, feature, moves) == ReliableIn(names, base, feature)
  {
    GroupNames(names, base, feature, Unreliable);
    forall n | n in Reliable(base, feature, moves)
      ensures n in ReliableIn(names, base, feature)
    {
      assert n in Members(names);
    }
  }

  lemma {:induction false} SignOfSum(moves: seq<Movement>, up: bool)
    requires forall m :: m in moves ==> if up then m.after > m.before else m.after < m.before
    ensures moves == [] ==> MovementSum(moves) == 0.0
    ensures moves != [] ==> if up then MovementSum(moves) > 0.0 else MovementSum(moves) < 0.0
  {
    if moves != [] {
      SignOfSum(moves[..|moves| - 1], up);
    }
  }

  /** A movement reported under `fate` is that of a shared case with that fate. */
  lemma MovementsOf(names: seq<string>, base: RunSummary, feature: RunSummary, fate: Fate, m: Movement)
    requires Listed(names, base, feature) && fate in {Regressed, Recovered, Unreliable}
    requires Shared(Named(names, base, feature, fate), base, feature)
    requires m in Movements(Named(names, base, feature, fate), base, feature)
    ensures m.name in base && m.name in feature && Judge(base[m.name], feature[m.name]) == fate
    ensures m == Movement(m.name, Rate(base[m.name]), Rate(feature[m.name]))
  {
    NamedExactly(names, base, feature, fate);
    var group := Named(names, base, feature, fate);
    var i :| 0 <= i < |group| && Movements(group, base, feature)[i] == m;
    assert group[i] in group;
  }

  ghost predicate Genuine(m: Movement, base: RunSummary, feature: RunSummary, fate: Fate) {
    && m.name in base && m.name in feature
    && Judge(base[m.name], feature[m.name]) == fate
    && m == Movement(m.name, Rate(base[m.name]), Rate(feature[m.name]))
  }

  function NamesOf(moves: seq<Movement>): seq<string> {
    seq(|moves|, i requires 0 <= i < |moves| => moves[i].name)
  }

  /** Each list is in name order and names no case twice. */
  lemma ListsInNameOrder(base: RunSummary, feature: RunSummary, moves: Moves)
    requires Classifies(moves, base, feature)
    ensures Ascending(NamesOf(moves.regressed)) && Ascending(NamesOf(moves.recovered))
    ensures Ascending(NamesOf(moves.unreliable)) && Ascending(moves.added) && Ascending(moves.removed)
  {
    var names :| Sorts(names, base.Keys + feature.Keys) && Listed(names, base, feature)
                 && IsMoves(moves, names, base, feature);
    hide FateOf, Ascending;
    forall fate
      ensures Ascending(Named(names, base, feature, fate))
    {
      NamedAscending(names, base, feature, fate);
    }
    NamedShared(names, base, feature, Regressed);
    NamedShared(names, base, feature, Recovered);
    NamedShared(names, base, feature, Unreliable);
    NamesOfMovements(Named(names, base, feature, Regressed), base, feature);
    NamesOfMovements(Named(names, base, feature, Recovered), base, feature);
    NamesOfMovements(Named(names, base, feature, Unreliable), base, feature);
  }

  lemma NamesOfMovements(names: seq<string>, base: RunSummary, feature: RunSummary)
    requires Shared(names, base, feature)
    ensures NamesOf(Movements(names, base, feature)) == names
  {
  }

  lemma {:induction false} NamedAscending(names: seq<string>, base: RunSummary, feature: RunSummary, fate: Fate)
    requires Ascending(names) && Listed(names, base, feature)
    ensures Ascending(Named(names, base, feature, fate))
  {
    hide FateOf;
    if names != [] {
      var init := names[..|names| - 1];
      NamedAscending(init, base, feature, fate);
      NamedExactly(init, base, feature, fate);
      var group := Named(init, base, feature, fate);
      forall i | 0 <= i < |group|
        ensures Less(group[i], names[|names| - 1])
      {
        assert group[i] in group;
        var k :| 0 <= k < |init| && init[k] == group[i];
      }
    }
  }

  lemma GroupGenuine(base: RunSummary, feature: RunSummary, moves: Moves)
    requires Classifies(moves, base, feature)
    ensures forall m :: m in moves.recovered ==> Genuine(m, base, feature, Recovered)
    ensures forall m :: m in moves.regressed ==> Genuine(m, base, feature, Regressed)
    ensures forall m :: m in moves.unreliable ==> Genuine(m, base, feature, Unreliable)
  {
    var names :| Sorts(names, base.Keys + feature.Keys) && Listed(names, base, feature)
                 && IsMoves(moves, names, base, feature);
    forall m | m in moves.recovered
      ensures Genuine(m, base, feature, Recovered)
    {
      GroupNames(names, base, feature, Recovered);
      MovementsOf(names, base, feature, Recovered, m);
    }
    forall m | m in moves.regressed
      ensures Genuine(m, base, feature, Regressed)
    {
      GroupNames(names, base, feature, Regressed);
      MovementsOf(names, base, feature, Regressed, m);
    }
    forall m | m in moves.unreliable
      ensures Genuine(m, base, feature, Unreliable)
    {
      GroupNames(names, base, feature, Unreliable);
      MovementsOf(names, base, feature, Unreliable, m);
    }
  }

  /** A reported movement gives the rates of its case: times the attempts, they are the passes. */
  lemma MovementExactly(base: RunSummary, feature: RunSummary, moves: Moves, m: Movement)
    requires Classifies(moves, base, feature)
    requires m in moves.recovered || m in moves.regressed || m in moves.unreliable
    ensures m.name in base && m.name in feature
    ensures m.before * base[m.name].runs as real == base[m.name].passes as real
    ensures m.after * feature[m.name].runs as real == feature[m.name].passes as real
  {
    hide Classifies, Judge, Rate;
    GroupGenuine(base, feature, moves);
    RateExactly(base[m.name]);
    RateExactly(feature[m.name]);
  }

  /** At a positive threshold an improvement has a recovered case behind it, a regression a regressed one. */
  lemma VerdictHasEvidence(base: RunSummary, feature: RunSummary, moves: Moves, delta: real, threshold: real)
    requires Classifies(moves, base, feature) && threshold > 0.0
    requires delta == Delta(base, feature, Reliable(base, feature, moves))
    ensures VerdictOf(delta, moves, threshold) == Improved ==> moves.recovered != []
    ensures VerdictOf(delta, moves, threshold) == Regression ==> moves.regressed != []
  {
    hide Classifies, Mean, Delta, Rate;
    GroupSigns(base, feature, moves);
    var shared := Reliable(base, feature, moves);
    var sum := MovementSum(moves.regressed) + MovementSum(moves.recovered);
    Conservation(base, feature, moves, shared, delta, sum);
    MeanSign(sum, |shared|);
  }

  lemma GroupSigns(base: RunSummary, feature: RunSummary, moves: Moves)
    requires Classifies(moves, base, feature)
    ensures MovementSum(moves.regressed) <= 0.0 <= MovementSum(moves.recovered)
    ensures MovementSum(moves.recovered) > 0.0 <==> moves.recovered != []
    ensures MovementSum(moves.regressed) < 0.0 <==> moves.regressed != []
  {
    GroupGenuine(base, feature, moves);
    SignOfSum(moves.recovered, true);
    SignOfSum(moves.regressed, false);
  }

  lemma MeanSign(sum: real, n: nat)
    ensures Mean(sum, n) > 0.0 ==> sum > 0.0
    ensures Mean(sum, n) < 0.0 ==> sum < 0.0
  {
    if n > 0 {
      var m := sum / n as real;
      assert sum == m * n as real;
    }
  }

  /** At a threshold of zero or less the evidence is missing: any run improves on itself. */
  lemma NoEvidenceAtZeroThreshold(run: RunSummary, moves: Moves, threshold: real)
    requires threshold <= 0.0
    requires Classifies(moves, run, run)
    ensures VerdictOf(Delta(run, run, Reliable(run, run, moves)), moves, threshold) == Improved
    ensures moves.recovered == [] == moves.regressed
  {
    hide Classifies, Mean, Rate, RateSum;
    GroupGenuine(run, run, moves);
    HasMember(moves.recovered);
    HasMember(moves.regressed);
  }

  lemma HasMember<T>(s: seq<T>)
    ensures s != [] ==> exists x :: x in s
  {
    if s != [] {
      assert s[0] in s;
    }
  }

  // ---- solid to broken ----------------------------------------------------------

  lemma RateEnds(c: CaseRun)
    ensures 0.0 <= Rate(c) <= 1.0
    ensures Rate(c) == 1.0 <==> c.passes == c.runs
    ensures Rate(c) == 0.0 <==> c.passes == 0
  {
    QuotientAtMostOne(c.passes, c.runs);
  }

  lemma {:induction false} BrokenExactly(moves: seq<Movement>)
    ensures forall n :: n in BrokenNames(moves) <==>
              exists m :: m in moves && m.name == n && m.before == 1.0 && m.after == 0.0
  {
    if moves != [] {
      BrokenExactly(moves[1..]);
      assert moves == [moves[0]] + moves[1..];
    }
  }

  /** The hard regressions are exactly the cases that always passed and now never do: none is withheld as flaky. */
  lemma HardRegressionsExactly(base: RunSummary, feature: RunSummary, moves: Moves, n: string)
    requires Classifies(moves, base, feature)
    ensures n in HardRegressions(moves)
       <==> n in base && n in feature && base[n].passes == base[n].runs && feature[n].passes == 0
  {
    BrokenExactly(moves.regressed);
    GroupGenuine(base, feature, moves);
    if n in HardRegressions(moves) {
      var m :| m in moves.regressed && m.name == n && m.before == 1.0 && m.after == 0.0;
      RateEnds(base[n]);
      RateEnds(feature[n]);
    }
    if n in base && n in feature && base[n].passes == base[n].runs && feature[n].passes == 0 {
      RateEnds(base[n]);
      RateEnds(feature[n]);
      ExactlyOneGroup(base, feature, moves, n);
      assert InGroup(n, moves, Regressed);
      var m :| m in moves.regressed && m.name == n;
    }
  }

  /** One such case decides the verdict, whatever the delta and the threshold. */
  lemma BrokenCaseForcesRegression(base: RunSummary, feature: RunSummary, moves: Moves, n: string, delta: real,
                                   threshold: real)
    requires Classifies(moves, base, feature)
    requires n in base && n in feature && base[n].passes == base[n].runs && feature[n].passes == 0
    ensures VerdictOf(delta, moves, threshold) == Regression
  {
    HardRegressionsExactly(base, feature, moves, n);
  }

  // ---- reversing the comparison ---------------------------------------------------

  lemma SignificantEitherWay(before: CaseRun, after: CaseRun)
    requires Rate(before) != Rate(after)
    ensures IsSignificant(before, after) == IsSignificant(after, before)
  {
  }

  /** Swapping the two runs reverses the fate of every case. */
  lemma FateReverses(n: string, base: RunSummary, feature: RunSummary)
    requires n in base || n in feature
    ensures FateOf(n, feature, base) == FateOf(n, base, feature).Reversed()
  {
    if n in base && n in feature && Rate(base[n]) != Rate(feature[n]) {
      SignificantEitherWay(base[n], feature[n]);
    }
  }

  lemma {:induction false} NamedReverses(names: seq<string>, base: RunSummary, feature: RunSummary, fate: Fate)
    requires Listed(names, base, feature)
    ensures Listed(names, feature, base)
    ensures Named(names, feature, base, fate.Reversed()) == Named(names, base, feature, fate)
  {
    if names != [] {
      NamedReverses(names[..|names| - 1], base, feature, fate);
      FateReverses(names[|names| - 1], base, feature);
    }
  }

  function Flip(m: Movement): Movement {
    Movement(m.name, m.after, m.before)
  }

  function Flipped(ms: seq<Movement>): seq<Movement> {
    seq(|ms|, i requires 0 <= i < |ms| => Flip(ms[i]))
  }

  /** The classification of the swapped comparison. */
  function Mirror(moves: Moves): Moves {
    Moves(Flipped(moves.recovered), Flipped(moves.regressed), Flipped(moves.unreliable), moves.removed, moves.added)
  }

  lemma MovementsReverse(names: seq<string>, base: RunSummary, feature: RunSummary)
    requires Shared(names, base, feature)
    ensures Shared(names, feature, base)
    ensures Movements(names, feature, base) == Flipped(Movements(names, base, feature))
  {
  }

  lemma GroupReverses(names: seq<string>, base: RunSummary, feature: RunSummary, fate: Fate)
    requires Listed(names, base, feature) && Listed(names, feature, base)
    requires fate in {Regressed, Recovered, Unreliable}
    ensures Shared(Named(names, base, feature, fate), base, feature)
    ensures Shared(Named(names, feature, base, fate.Reversed()), feature, base)
    ensures Movements(Named(names, feature, base, fate.Reversed()), feature, base)
         == Flipped(Movements(Named(names, base, feature, fate), base, feature))
  {
    NamedShared(names, base, feature, fate);
    NamedReverses(names, base, feature, fate);
    MovementsReverse(Named(names, base, feature, fate), base, feature);
  }

  /** Regressed and recovered trade places, added and removed trade places, the withheld names stay. */
  lemma SwapMirrors(base: RunSummary, feature: RunSummary, moves: Moves, back: Moves)
    requires Classifies(moves, base, feature) && Classifies(back, feature, base)
    ensures back == Mirror(moves)
  {
    hide Judge, Named, Movements;
    var names :| Sorts(names, base.Keys + feature.Keys) && Listed(names, base, feature)
                 && IsMoves(moves, names, base, feature);
    var names' :| Sorts(names', feature.Keys + base.Keys) && Listed(names', feature, base)
                  && IsMoves(back, names', feature, base);
    assert base.Keys + feature.Keys == feature.Keys + base.Keys;
    SortedUnique(names, names');
    MirrorOfListing(names, base, feature, moves, back);
  }

  lemma MirrorOfListing(names: seq<string>, base: RunSummary, feature: RunSummary, moves: Moves, back: Moves)
    requires Listed(names, base, feature) && Listed(names, feature, base)
    requires IsMoves(moves, names, base, feature) && IsMoves(back, names, feature, base)
    ensures back == Mirror(moves)
  {
    GroupReverses(names, base, feature, Regressed);
    GroupReverses(names, base, feature, Recovered);
    GroupReverses(names, base, feature, Unreliable);
    NamedReverses(names, base, feature, Added);
    NamedReverses(names, base, feature, Removed);
  }

  lemma FlippedNames(ms: seq<Movement>)
    ensures NamesIn(Flipped(ms)) == NamesIn(ms)
  {
    forall n | n in NamesIn(ms)
      ensures n in NamesIn(Flipped(ms))
    {
      var i :| 0 <= i < |ms| && ms[i].name == n;
      assert Flipped(ms)[i] in Flipped(ms);
    }
  }

  /** The delta changes sign. */
  lemma SwapNegatesDelta(base: RunSummary, feature: RunSummary, moves: Moves)
    ensures Reliable(feature, base, Mirror(moves)) == Reliable(base, feature, moves)
    ensures Delta(feature, base, Reliable(feature, base, Mirror(moves)))
         == -Delta(base, feature, Reliable(base, feature, moves))
  {
    FlippedNames(moves.unreliable);
    assert feature.Keys * base.Keys == base.Keys * feature.Keys;
  }

  /** Cases that never passed and now always do. */
  predicate HasHardRecovery(moves: Moves) {
    exists m :: m in moves.recovered && m.before == 0.0 && m.after == 1.0
  }

  lemma MirrorHardRegressions(moves: Moves)
    ensures HardRegressions(Mirror(moves)) != [] <==> HasHardRecovery(moves)
  {
    var back := Flipped(moves.recovered);
    BrokenExactly(back);
    if HardRegressions(Mirror(moves)) != [] {
      var n := BrokenNames(back)[0];
      assert n in BrokenNames(back);
      var m :| m in back && m.name == n && m.before == 1.0 && m.after == 0.0;
      var i :| 0 <= i < |back| && back[i] == m;
      assert moves.recovered[i] in moves.recovered;
    }
    if HasHardRecovery(moves) {
      var m :| m in moves.recovered && m.before == 0.0 && m.after == 1.0;
      var i :| 0 <= i < |moves.recovered| && moves.recovered[i] == m;
      assert back[i] in back;
      assert back[i].name in BrokenNames(back);
    }
  }

  /**
    What the swapped comparison says, in full: at a positive threshold an improvement
    always reads as a regression the other way round, and a verdict of improvement
    comes back exactly from a regressing delta with no hard recovery in it.
   */
  lemma SwapReversesVerdict(base: RunSummary, feature: RunSummary, moves: Moves, back: Moves, delta: real,
                            delta': real, threshold: real)
    requires Classifies(moves, base, feature) && Classifies(back, feature, base)
    requires delta == Delta(base, feature, Reliable(base, feature, moves))
    requires delta' == Delta(feature, base, Reliable(feature, base, back))
    requires threshold > 0.0
    ensures delta' == -delta
    ensures VerdictOf(delta, moves, threshold) == Improved ==> VerdictOf(delta', back, threshold) == Regression
    ensures VerdictOf(delta', back, threshold) == Improved <==> delta <= -threshold && !HasHardRecovery(moves)
    ensures VerdictOf(delta', back, threshold) == Noise <==> -threshold < delta < threshold && !HasHardRecovery(moves)
  {
    hide Classifies, Mean, Delta, Rate;
    SwapMirrors(base, feature, moves, back);
    SwapNegatesDelta(base, feature, moves);
    MirrorHardRegressions(moves);
  }

  // ---- monotone evidence --------------------------------------------------------------

  lemma RateMonotone(x: CaseRun, y: CaseRun)
    requires x.runs == y.runs && x.passes <= y.passes
    ensures Rate(x) <= Rate(y)
  {
    CrossLe(x.passes, x.runs, y.passes, y.runs);
  }

  /** If a rise is counted, so is every rise from no higher to no lower at the same numbers of runs. */
  lemma RecoveredUpwardClosed(before: CaseRun, after: CaseRun, before': CaseRun, after': CaseRun)
    requires before'.runs == before.runs && before'.passes <= before.passes
    requires after'.runs == after.runs && after.passes <= after'.passes
    requires Judge(before, after) == Recovered
    ensures Judge(before', after') == Recovered
  {
    RateMonotone(before', before);
    RateMonotone(after, after');
    if IsSignificant(before, after) {
      MoreExtreme(before.passes, before.runs, after.passes, after.runs, before'.passes, after'.passes);
    } else {
      RateEnds(before);
      RateEnds(after);
    }
  }

  /** The same for falls. */
  lemma RegressedDownwardClosed(before: CaseRun, after: CaseRun, before': CaseRun, after': CaseRun)
    requires before'.runs == before.runs && before.passes <= before'.passes
    requires after'.runs == after.runs && after'.passes <= after.passes
    requires Judge(before, after) == Regressed
    ensures Judge(before', after') == Regressed
  {
    SignificantEitherWay(before, after);
    RecoveredUpwardClosed(after, before, after', before');
    SignificantEitherWay(before', after');
  }

  // ---- sample counts -------------------------------------------------------------------

  function Samples(run: RunSummary): set<nat> {
    set n | n in run :: run[n].runs
  }

  /** The comparison is refused only when the two sets of sample counts differ. */
  predicate Comparable(base: RunSummary, feature: RunSummary) {
    Samples(base) == Samples(feature)
  }

  /** Case by case the two runs used the same counts. */
  ghost predicate Agree(base: RunSummary, feature: RunSummary) {
    forall n :: n in base && n in feature ==> base[n].runs == feature[n].runs
  }

  ghost predicate OneCount(run: RunSummary) {
    forall p, q :: p in run && q in run ==> run[p].runs == run[q].runs
  }

  lemma OneCountExactly(run: RunSummary)
    ensures OneCount(run) <==> |Samples(run)| <= 1
  {
    var counts := Samples(run);
    assert forall n :: n in run ==> run[n].runs in counts;
    if counts != {} {
      var c :| c in counts;
      if OneCount(run) {
        assert counts == {c};
      }
      if |counts| <= 1 {
        assert |counts - {c}| == 0;
        assert counts == {c};
      }
    }
  }

  /** Exchanging the outcomes of two cases keeps the set of counts. */
  lemma ExchangeComparable(base: RunSummary, p: string, q: string)
    requires p in base && q in base
    ensures Comparable(base, base[p := base[q]][q := base[p]])
  {
    var feature := base[p := base[q]][q := base[p]];
    forall n | n in base
      ensures base[n].runs in Samples(feature) && feature[n].runs in Samples(base)
    {
      var m := if n == p then q else if n == q then p else n;
      assert feature[m] == base[n] && m in feature;
    }
  }

  /**
    Not being refused means equal counts case by case exactly for a run that used one count
    throughout: from any other, exchanging two cases' outcomes makes a run that is compared
    all the same.
   */
  lemma ComparableAgreesExactly(base: RunSummary)
    ensures (forall feature: RunSummary :: Comparable(base, feature) ==> Agree(base, feature)) <==> |Samples(base)| <= 1
  {
    OneCountExactly(base);
    if OneCount(base) {
      forall feature: RunSummary | Comparable(base, feature)
        ensures Agree(base, feature)
      {
        forall n | n in base && n in feature
          ensures base[n].runs == feature[n].runs
        {
          assert feature[n].runs in Samples(feature);
        }
      }
    } else {
      var p, q :| p in base && q in base && base[p].runs != base[q].runs;
      ExchangeComparable(base, p, q);
      assert !Agree(base, base[p := base[q]][q := base[p]]);
    }
  }
}
