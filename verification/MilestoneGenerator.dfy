/**
  Generating a planned project milestone by milestone: files dealt out to milestones,
  cut into bundles, each bundle asked for, applied and checked a bounded number of times.
  Model replies, approvals, applied transactions and the clock are arbitrary inputs.
 */
module MilestoneGenerator {
  import opened Basics

  const MAX_BUNDLE_FILES := 3
  const MAX_BUNDLE_ATTEMPTS := 2

  /** `base` is the build stage a file or milestone belongs to, read off its path or id. */
  datatype PlannedFile = PlannedFile(path: string, base: int)
  datatype Milestone = Milestone(id: string, base: int)

  // ---- dealing files to milestones -------------------------------------------------------

  ghost predicate UniqueIds(ms: seq<Milestone>) {
    forall i, j :: 0 <= i < j < |ms| ==> ms[i].id != ms[j].id
  }

  function WithBase(ms: seq<Milestone>, base: int): seq<Milestone> {
    if ms == [] then []
    else WithBase(ms[..|ms| - 1], base) + if ms[|ms| - 1].base == base then [ms[|ms| - 1]] else []
  }

  lemma {:induction false} WithBaseMembers(ms: seq<Milestone>, base: int)
    ensures forall m :: m in WithBase(ms, base) ==> m in ms && m.base == base
  {
    if ms != [] {
      WithBaseMembers(ms[..|ms| - 1], base);
    }
  }

  /** Who may get a file: the milestones of its stage, or else the first milestone. */
  function Candidates(ms: seq<Milestone>, base: int): seq<Milestone> {
    if WithBase(ms, base) != [] then WithBase(ms, base) else if ms != [] then ms[..1] else []
  }

  lemma CandidatesListed(ms: seq<Milestone>, base: int)
    ensures forall m :: m in Candidates(ms, base) ==> m in ms
    ensures Candidates(ms, base) == [] <==> ms == []
  {
    WithBaseMembers(ms, base);
  }

  /** Everything assigned, milestone after milestone. */
  function Dealt(ms: seq<Milestone>, assignments: map<string, seq<PlannedFile>>): seq<PlannedFile>
    requires forall m :: m in ms ==> m.id in assignments
  {
    if ms == [] then []
    else Dealt(ms[..|ms| - 1], assignments) + assignments[ms[|ms| - 1].id]
  }

  lemma {:induction false} DealtElsewhere(ms: seq<Milestone>, assignments: map<string, seq<PlannedFile>>, id: string,
                                          fs: seq<PlannedFile>)
    requires forall m :: m in ms ==> m.id in assignments && m.id != id
    ensures Dealt(ms, assignments[id := fs]) == Dealt(ms, assignments)
  {
    if ms != [] {
      assert ms[|ms| - 1] in ms;
      DealtElsewhere(ms[..|ms| - 1], assignments, id, fs);
    }
  }

  lemma DealtLast(ms: seq<Milestone>, assignments: map<string, seq<PlannedFile>>)
    requires ms != [] && forall m :: m in ms ==> m.id in assignments
    ensures ms[|ms| - 1] in ms && forall m :: m in ms[..|ms| - 1] ==> m in ms
    ensures multiset(Dealt(ms, assignments))
         == multiset(Dealt(ms[..|ms| - 1], assignments)) + multiset(assignments[ms[|ms| - 1].id])
  {
  }

  lemma LastIdIsNew(ms: seq<Milestone>)
    requires ms != [] && UniqueIds(ms)
    ensures UniqueIds(ms[..|ms| - 1])
    ensures forall m :: m in ms[..|ms| - 1] ==> m.id != ms[|ms| - 1].id
  {
  }

  lemma {:induction false} DealtGrows(ms: seq<Milestone>, assignments: map<string, seq<PlannedFile>>, k: nat,
                                      f: PlannedFile)
    requires UniqueIds(ms) && k < |ms|
    requires forall m :: m in ms ==> m.id in assignments
    ensures multiset(Dealt(ms, assignments[ms[k].id := assignments[ms[k].id] + [f]]))
         == multiset(Dealt(ms, assignments)) + multiset{f}
  {
    hide Dealt, UniqueIds;
    var last := |ms| - 1;
    var id := ms[k].id;
    var grown := assignments[id := assignments[id] + [f]];
    LastIdIsNew(ms);
    DealtLast(ms, assignments);
    DealtLast(ms, grown);
    if k == last {
      DealtElsewhere(ms[..last], assignments, id, assignments[id] + [f]);
    } else {
      assert ms[..last][k] == ms[k];
      DealtGrows(ms[..last], assignments, k, f);
    }
  }

  // ---- who gets which file -------------------------------------------------------------------

  function CountBase(files: seq<PlannedFile>, base: int): nat {
    if files == [] then 0
    else CountBase(files[..|files| - 1], base) + if files[|files| - 1].base == base then 1 else 0
  }

  /** The milestones of a stage take its files in turn. */
  function OwnerOf(earlier: seq<PlannedFile>, f: PlannedFile, ms: seq<Milestone>): Milestone
    requires ms != []
  {
    CandidatesListed(ms, f.base);
    var candidates := Candidates(ms, f.base);
    candidates[CountBase(earlier, f.base) % |candidates|]
  }

  /** The files of one milestone, in plan order. */
  function AssignedTo(files: seq<PlannedFile>, ms: seq<Milestone>, id: string): seq<PlannedFile>
    requires ms != []
  {
    if files == [] then []
    else
      var k := |files| - 1;
      AssignedTo(files[..k], ms, id) + if OwnerOf(files[..k], files[k], ms).id == id then [files[k]] else []
  }

  ghost predicate Assigns(assignments: map<string, seq<PlannedFile>>, files: seq<PlannedFile>, ms: seq<Milestone>)
    requires ms != []
  {
    && assignments.Keys == (set m | m in ms :: m.id)
    && forall m :: m in ms ==> assignments[m.id] == AssignedTo(files, ms, m.id)
  }

  lemma AssignsNext(assignments: map<string, seq<PlannedFile>>, files: seq<PlannedFile>, f: PlannedFile,
                    ms: seq<Milestone>)
    requires ms != [] && Assigns(assignments, files, ms)
    ensures
      var id := OwnerOf(files, f, ms).id;
      && OwnerOf(files, f, ms) in ms && id in assignments
      && Assigns(assignments[id := assignments[id] + [f]], files + [f], ms)
  {
    CandidatesListed(ms, f.base);
    assert (files + [f])[..|files|] == files;
    var id := OwnerOf(files, f, ms).id;
    assert OwnerOf(files, f, ms) in Candidates(ms, f.base);
    forall m | m in ms
      ensures assignments[id := assignments[id] + [f]][m.id] == AssignedTo(files + [f], ms, m.id)
    {
      assert AssignedTo(files, ms, m.id) + [] == AssignedTo(files, ms, m.id);
    }
  }

  // ---- what dealing round robin gives ----------------------------------------------------------

  lemma {:induction false} WithBaseOrder(ms: seq<Milestone>, base: int, a: nat, b: nat) returns (i: nat, j: nat)
    requires a < b < |ms| && ms[a].base == base == ms[b].base
    ensures i < j < |WithBase(ms, base)| && WithBase(ms, base)[i] == ms[a] && WithBase(ms, base)[j] == ms[b]
  {
    var k := |ms| - 1;
    if b < k {
      i, j := WithBaseOrder(ms[..k], base, a, b);
    } else {
      i := WithBaseFinds(ms[..k], base, a);
      j := |WithBase(ms[..k], base)|;
    }
  }

  lemma {:induction false} WithBaseFinds(ms: seq<Milestone>, base: int, a: nat) returns (i: nat)
    requires a < |ms| && ms[a].base == base
    ensures i < |WithBase(ms, base)| && WithBase(ms, base)[i] == ms[a]
  {
    var k := |ms| - 1;
    if a < k {
      i := WithBaseFinds(ms[..k], base, a);
    } else {
      i := |WithBase(ms[..k], base)|;
    }
  }

  lemma {:induction false} WithBaseDistinct(ms: seq<Milestone>, base: int)
    requires UniqueIds(ms)
    ensures UniqueIds(WithBase(ms, base))
  {
    if ms != [] {
      var init, last := ms[..|ms| - 1], ms[|ms| - 1];
      LastIdIsNew(ms);
      WithBaseDistinct(init, base);
      WithBaseMembers(init, base);
      var group := WithBase(init, base);
      forall i | 0 <= i < |group|
        ensures group[i].id != last.id
      {
        assert group[i] in group;
      }
    }
  }

  /** How many of the first `n` turns fall on place `j` of `places`. */
  function Share(n: nat, places: nat, j: nat): nat
    requires places > 0
  {
    n / places + if j < n % places then 1 else 0
  }

  lemma ShareNext(n: nat, places: nat, j: nat)
    requires j < places
    ensures Share(0, places, j) == 0
    ensures Share(n + 1, places, j) == Share(n, places, j) + if n % places == j then 1 else 0
  {
    var q, r := n / places, n % places;
    assert n == q * places + r;
    if r + 1 < places {
      QuotientIs(n + 1, places, q, r + 1);
    } else {
      assert n + 1 == (q + 1) * places + 0;
      QuotientIs(n + 1, places, q + 1, 0);
    }
    QuotientIs(0, places, 0, 0);
  }

  lemma QuotientIs(n: nat, d: nat, q: nat, r: nat)
    requires n == q * d + r && r < d
    ensures n / d == q && n % d == r
  {
    SameDivision(d, n / d, n % d, q, r);
  }

  lemma SameDivision(d: nat, q: int, r: nat, q': int, r': nat)
    requires r < d && r' < d && q * d + r == q' * d + r'
    ensures q == q' && r == r'
  {
    if q < q' {
      AtLeastOnce(d, q' - q);
    } else if q' < q {
      AtLeastOnce(d, q - q');
    }
  }

  lemma AtLeastOnce(d: nat, e: int)
    requires e > 0
    ensures e * d >= d
  {
    assert e * d == (e - 1) * d + d;
  }

  /** The places in a list of a stage's files. */
  function OfStage(files: seq<PlannedFile>, base: int): set<nat> {
    set k | 0 <= k < |files| && files[k].base == base
  }

  lemma {:induction false} CountIsSize(files: seq<PlannedFile>, base: int)
    ensures CountBase(files, base) == |OfStage(files, base)|
  {
    if files != [] {
      var k := |files| - 1;
      CountIsSize(files[..k], base);
      if files[k].base == base {
        assert OfStage(files, base) == OfStage(files[..k], base) + {k};
      } else {
        assert OfStage(files, base) == OfStage(files[..k], base);
      }
    } else {
      assert OfStage(files, base) == {};
    }
  }

  /** The `j`-th milestone of a stage gets every turn that falls on its place. */
  lemma {:induction false} SharesOut(files: seq<PlannedFile>, ms: seq<Milestone>, base: int, j: nat)
    requires UniqueIds(ms) && j < |WithBase(ms, base)|
    ensures ms != [] && CountBase(AssignedTo(files, ms, WithBase(ms, base)[j].id), base)
                        == Share(CountBase(files, base), |WithBase(ms, base)|, j)
  {
    hide UniqueIds, WithBase, Share;
    WithBaseMembers(ms, base);
    var group := WithBase(ms, base);
    assert group[j] in ms;
    ShareNext(CountBase(if files == [] then [] else files[..|files| - 1], base), |group|, j);
    if files != [] {
      var k := |files| - 1;
      var f := files[k];
      var mine := AssignedTo(files[..k], ms, group[j].id);
      SharesOut(files[..k], ms, base, j);
      CountNext(mine, f);
      assert mine + [] == mine;
      if f.base == base {
        assert Candidates(ms, base) == group;
        PlaceOfId(ms, base, CountBase(files[..k], base) % |group|, j);
      }
    }
  }

  lemma PlaceOfId(ms: seq<Milestone>, base: int, i: nat, j: nat)
    requires UniqueIds(ms) && i < |WithBase(ms, base)| && j < |WithBase(ms, base)|
    ensures WithBase(ms, base)[i].id == WithBase(ms, base)[j].id <==> i == j
  {
    WithBaseDistinct(ms, base);
  }

  ghost predicate HasStage(ms: seq<Milestone>, base: int) {
    exists o :: o in ms && o.base == base
  }

  /** Each file is with a milestone of its own stage, or with the first milestone if there is none. */
  ghost predicate StagesRight(assignments: map<string, seq<PlannedFile>>, ms: seq<Milestone>)
    requires forall m :: m in ms ==> m.id in assignments
  {
    forall m, f :: m in ms && f in assignments[m.id] ==>
                     if HasStage(ms, f.base) then m.base == f.base else m == ms[0]
  }

  /** Of one stage's files its milestones have equally many, the earlier ones at most one more. */
  ghost predicate Even(assignments: map<string, seq<PlannedFile>>, ms: seq<Milestone>)
    requires forall m :: m in ms ==> m.id in assignments
  {
    forall a, b :: 0 <= a < b < |ms| && ms[a].base == ms[b].base ==>
                     var earlier := |OfStage(assignments[ms[a].id], ms[a].base)|;
                     var later := |OfStage(assignments[ms[b].id], ms[a].base)|;
                     later <= earlier <= later + 1
  }

  /** The part is the whole with some files left out. */
  ghost predicate InPlanOrder(part: seq<PlannedFile>, files: seq<PlannedFile>) {
    exists at :: Places(at, part, files)
  }

  ghost predicate Places(at: seq<nat>, part: seq<PlannedFile>, files: seq<PlannedFile>) {
    && |at| == |part| && (forall k :: 0 <= k < |at| ==> at[k] < |files| && files[at[k]] == part[k])
    && forall i, j :: 0 <= i < j < |at| ==> at[i] < at[j]
  }

  lemma PlacesNext(at: seq<nat>, part: seq<PlannedFile>, files: seq<PlannedFile>, f: PlannedFile)
    requires Places(at, part, files)
    ensures Places(at, part, files + [f]) && Places(at + [|files|], part + [f], files + [f])
  {
  }

  lemma {:induction false} AssignedInOrder(files: seq<PlannedFile>, ms: seq<Milestone>, id: string)
    requires ms != []
    ensures InPlanOrder(AssignedTo(files, ms, id), files)
  {
    hide OwnerOf, Places;
    if files == [] {
      NoPlaces();
    } else {
      var k := |files| - 1;
      AssignedInOrder(files[..k], ms, id);
      var part := AssignedTo(files[..k], ms, id);
      var at :| Places(at, part, files[..k]);
      PlacesNext(at, part, files[..k], files[k]);
      assert files == files[..k] + [files[k]] && part + [] == part;
    }
  }

  lemma NoPlaces()
    ensures Places([], [], [])
  {
  }

  lemma StageOfGroup(ms: seq<Milestone>, base: int)
    ensures WithBase(ms, base) == [] || HasStage(ms, base)
  {
    WithBaseMembers(ms, base);
    if WithBase(ms, base) != [] {
      assert WithBase(ms, base)[0] in WithBase(ms, base);
    }
  }

  lemma OwnerStage(earlier: seq<PlannedFile>, f: PlannedFile, ms: seq<Milestone>)
    requires ms != []
    ensures OwnerOf(earlier, f, ms) in ms
    ensures if HasStage(ms, f.base) then OwnerOf(earlier, f, ms).base == f.base else OwnerOf(earlier, f, ms) == ms[0]
  {
    hide WithBase;
    WithBaseMembers(ms, f.base);
    StageOfGroup(ms, f.base);
    CandidatesListed(ms, f.base);
    var owner := OwnerOf(earlier, f, ms);
    assert owner in Candidates(ms, f.base);
    if HasStage(ms, f.base) {
      var o :| o in ms && o.base == f.base;
      var a :| 0 <= a < |ms| && ms[a] == o;
      var i := WithBaseFinds(ms, f.base, a);
    }
  }

  lemma {:induction false} AssignedStage(files: seq<PlannedFile>, ms: seq<Milestone>, m: Milestone, f: PlannedFile)
    requires UniqueIds(ms) && m in ms && f in AssignedTo(files, ms, m.id)
    ensures if HasStage(ms, f.base) then m.base == f.base else m == ms[0]
  {
    hide OwnerOf, HasStage;
    var k := |files| - 1;
    if f in AssignedTo(files[..k], ms, m.id) {
      AssignedStage(files[..k], ms, m, f);
    } else {
      OwnerStage(files[..k], files[k], ms);
      SameId(ms, m, OwnerOf(files[..k], files[k], ms));
    }
  }

  lemma SameId(ms: seq<Milestone>, m: Milestone, o: Milestone)
    requires UniqueIds(ms) && m in ms && o in ms && m.id == o.id
    ensures m == o
  {
    var i :| 0 <= i < |ms| && ms[i] == m;
    var j :| 0 <= j < |ms| && ms[j] == o;
  }

  /** Dealt this way, files keep to their stages, evenly and in plan order. */
  lemma DealtRoundRobin(assignments: map<string, seq<PlannedFile>>, files: seq<PlannedFile>, ms: seq<Milestone>)
    requires UniqueIds(ms) && ms != [] && Assigns(assignments, files, ms)
    ensures forall m :: m in ms ==> m.id in assignments
    ensures StagesRight(assignments, ms) && Even(assignments, ms)
    ensures forall m :: m in ms ==> InPlanOrder(assignments[m.id], files)
  {
    hide UniqueIds, AssignedTo, HasStage, InPlanOrder;
    forall m, f | m in ms && f in assignments[m.id]
      ensures if HasStage(ms, f.base) then m.base == f.base else m == ms[0]
    {
      AssignedStage(files, ms, m, f);
    }
    forall a, b | 0 <= a < b < |ms| && ms[a].base == ms[b].base
      ensures
        var earlier := |OfStage(assignments[ms[a].id], ms[a].base)|;
        var later := |OfStage(assignments[ms[b].id], ms[a].base)|;
        later <= earlier <= later + 1
    {
      var base := ms[a].base;
      var i, j := WithBaseOrder(ms, base, a, b);
      SharesOut(files, ms, base, i);
      SharesOut(files, ms, base, j);
      CountIsSize(assignments[ms[a].id], base);
      CountIsSize(assignments[ms[b].id], base);
    }
    forall m | m in ms
      ensures InPlanOrder(assignments[m.id], files)
    {
      AssignedInOrder(files, ms, m.id);
    }
  }

  /** Round robin within each stage; every file ends up with exactly one milestone. */
  method AssignFiles(files: seq<PlannedFile>, ms: seq<Milestone>) returns (assignments: map<string, seq<PlannedFile>>)
    requires UniqueIds(ms)
    ensures forall m :: m in ms ==> m.id in assignments
    ensures ms != [] ==> Assigns(assignments, files, ms)
    ensures ms != [] ==> multiset(Dealt(ms, assignments)) == multiset(files)
    ensures ms == [] ==> assignments == map[]
    ensures StagesRight(assignments, ms) && Even(assignments, ms)
    ensures forall m :: m in ms ==> InPlanOrder(assignments[m.id], files)
  {
    hide Dealt, UniqueIds, Candidates, AssignedTo, HasStage, InPlanOrder;
    assignments := map m | m in ms :: m.id := [];
    var cursors: map<int, nat> := map[];
    NothingDealt(ms, assignments);
    NothingAssigned(ms);
    for i := 0 to |files|
      invariant forall m :: m in ms ==> m.id in assignments
      invariant ms == [] ==> assignments == map[]
      invariant ms != [] ==> Assigns(assignments, files[..i], ms)
      invariant ms != [] ==> forall base :: CountBase(files[..i], base) == if base in cursors then cursors[base] else 0
      invariant ms != [] ==> multiset(Dealt(ms, assignments)) == multiset(files[..i])
    {
      var f := files[i];
      assert files[..i + 1] == files[..i] + [f];
      var candidates := Candidates(ms, f.base);
      CandidatesListed(ms, f.base);
      if candidates == [] {
        continue;
      }
      var cursor := if f.base in cursors then cursors[f.base] else 0;
      var m := candidates[cursor % |candidates|];
      cursors := cursors[f.base := cursor + 1];
      AssignsNext(assignments, files[..i], f, ms);
      CountNext(files[..i], f);
      ghost var k :| 0 <= k < |ms| && ms[k] == m;
      DealtGrows(ms, assignments, k, f);
      assignments := assignments[m.id := assignments[m.id] + [f]];
    }
    assert files[..|files|] == files;
    if ms != [] {
      DealtRoundRobin(assignments, files, ms);
    }
  }

  lemma CountNext(files: seq<PlannedFile>, f: PlannedFile)
    ensures forall base :: CountBase(files + [f], base) == CountBase(files, base) + if f.base == base then 1 else 0
  {
    assert (files + [f])[..|files|] == files;
  }

  lemma NothingAssigned(ms: seq<Milestone>)
    ensures ms != [] ==> forall id :: AssignedTo([], ms, id) == []
    ensures forall base :: CountBase([], base) == 0
  {
  }

  lemma {:induction false} NothingDealt(ms: seq<Milestone>, assignments: map<string, seq<PlannedFile>>)
    requires forall m :: m in ms ==> m.id in assignments && assignments[m.id] == []
    ensures Dealt(ms, assignments) == []
  {
    if ms != [] {
      assert ms[|ms| - 1] in ms;
      NothingDealt(ms[..|ms| - 1], assignments);
    }
  }

  // ---- cutting into bundles ------------------------------------------------------------------

  function Chunks(files: seq<PlannedFile>): seq<seq<PlannedFile>>
    decreases |files|
  {
    if |files| <= MAX_BUNDLE_FILES then if files == [] then [] else [files]
    else [files[..MAX_BUNDLE_FILES]] + Chunks(files[MAX_BUNDLE_FILES..])
  }

  function Flatten(chunks: seq<seq<PlannedFile>>): seq<PlannedFile> {
    if chunks == [] then [] else chunks[0] + Flatten(chunks[1..])
  }

  /** Bundles of three files, the last of one to three, that together are the files, in order. */
  lemma {:induction false} ChunksPartition(files: seq<PlannedFile>)
    ensures Flatten(Chunks(files)) == files
    ensures forall c :: c in Chunks(files) ==> 1 <= |c| <= MAX_BUNDLE_FILES
    ensures forall k :: 0 <= k < |Chunks(files)| - 1 ==> |Chunks(files)[k]| == MAX_BUNDLE_FILES
    decreases |files|
  {
    if |files| > MAX_BUNDLE_FILES {
      ChunksPartition(files[MAX_BUNDLE_FILES..]);
      assert Chunks(files)[1..] == Chunks(files[MAX_BUNDLE_FILES..]);
    } else if files != [] {
      assert Flatten([files]) == files + Flatten([]);
    }
  }

  lemma FlattenNothing(chunks: seq<seq<PlannedFile>>)
    ensures Flatten(chunks[..0]) == []
  {
  }

  lemma {:induction false} FlattenJoins(xs: seq<seq<PlannedFile>>, ys: seq<seq<PlannedFile>>)
    ensures Flatten(xs + ys) == Flatten(xs) + Flatten(ys)
  {
    if xs == [] {
      assert xs + ys == ys;
    } else {
      assert (xs + ys)[1..] == xs[1..] + ys;
      FlattenJoins(xs[1..], ys);
    }
  }

  lemma FlattenNext(chunks: seq<seq<PlannedFile>>, i: nat)
    requires i < |chunks|
    ensures Flatten(chunks[..i + 1]) == Flatten(chunks[..i]) + chunks[i]
    ensures |Flatten(chunks[..i + 1])| <= |Flatten(chunks)|
    ensures forall f :: f in chunks[i] ==> f in Flatten(chunks)
  {
    assert chunks[..i + 1] == chunks[..i] + [chunks[i]];
    FlattenJoins(chunks[..i], [chunks[i]]);
    assert Flatten([chunks[i]]) == chunks[i] + Flatten([]);
    assert chunks == chunks[..i + 1] + chunks[i + 1..];
    FlattenJoins(chunks[..i + 1], chunks[i + 1..]);
  }

  lemma PathsNext(chunks: seq<seq<PlannedFile>>, i: nat)
    requires i < |chunks|
    ensures PathsOf(Flatten(chunks[..i + 1])) == PathsOf(Flatten(chunks[..i])) + PathsOf(chunks[i])
    ensures PathSet(Flatten(chunks[..i + 1])) == PathSet(Flatten(chunks[..i])) + PathSet(chunks[i])
  {
    FlattenNext(chunks, i);
  }

  lemma NoPaths()
    ensures PathsOf([]) == [] && PathSet([]) == {}
  {
  }

  function PathsOf(files: seq<PlannedFile>): seq<string> {
    seq(|files|, i requires 0 <= i < |files| => files[i].path)
  }

  function PathSet(files: seq<PlannedFile>): set<string> {
    set f | f in files :: f.path
  }

  // ---- what a reply must be --------------------------------------------------------------------

  /** One element of a bundle reply: not an object, or a path with some content that may be missing. */
  datatype Item = Junk | Item(path: string, content: Option<string>)

  /** A reply that did not parse to an object with a files array, or its files. */
  datatype Reply = Unusable | Bundle(items: seq<Item>)

  function StripLeft(s: string): string {
    if s != [] && IsSpace(s[0]) then StripLeft(s[1..]) else s
  }

  function StripRight(s: string): string {
    if s != [] && IsSpace(s[|s| - 1]) then StripRight(s[..|s| - 1]) else s
  }

  function DropSlashes(s: string): string {
    if s != [] && s[0] == '/' then DropSlashes(s[1..]) else s
  }

  /** A part between slashes that is exactly two dots begins here. */
  predicate ClimbsAt(s: string, i: nat) {
    && i + 2 <= |s| && s[i] == '.' && s[i + 1] == '.'
    && (i == 0 || s[i - 1] == '/') && (i + 2 == |s| || s[i + 2] == '/')
  }

  predicate ClimbsUp(s: string) {
    exists i :: 0 <= i <= |s| && ClimbsAt(s, i)
  }

  function SafeRelPath(path: string): string {
    var cleaned := Slashes(DropSlashes(StripRight(StripLeft(path))));
    if cleaned == "" || ClimbsUp(cleaned) then "" else cleaned
  }

  function ItemPath(it: Item): string {
    if it.Item? then SafeRelPath(it.path) else ""
  }

  predicate GoodItem(it: Item) {
    it.Item? && SafeRelPath(it.path) != "" && it.content.Some? && !Blank(it.content.value)
  }

  ghost predicate DistinctStrings(xs: seq<string>) {
    forall i, j :: 0 <= i < j < |xs| ==> xs[i] != xs[j]
  }

  function SafePaths(paths: seq<string>): seq<string> {
    seq(|paths|, i requires 0 <= i < |paths| => SafeRelPath(paths[i]))
  }

  /** A usable reply holds every requested file exactly once, with content, and nothing else. */
  ghost predicate Acceptable(reply: Reply, expected: seq<string>) {
    && reply.Bundle?
    && (forall p :: p in SafePaths(expected) ==> p != "") && DistinctStrings(SafePaths(expected))
    && GoodItems(reply.items)
    && (set it | it in reply.items :: ItemPath(it)) == (set p | p in SafePaths(expected))
  }

  /** As many items as files asked for, for each of them one, and all with content that is not white space. */
  ghost predicate OneForEach(items: seq<Item>, expected: seq<string>) {
    && |items| == |expected|
    && (forall i :: 0 <= i < |expected| ==> SafeRelPath(expected[i]) != "" && Offers(items, SafeRelPath(expected[i])))
    && forall it :: it in items ==> it.Item? && it.content.Some? && exists c :: c in it.content.value && !IsSpace(c)
  }

  ghost predicate Offers(items: seq<Item>, path: string) {
    exists it :: it in items && it.Item? && SafeRelPath(it.path) == path
  }

  lemma {:induction false} DistinctSize(xs: seq<string>)
    requires DistinctStrings(xs)
    ensures |set x | x in xs| == |xs|
  {
    if xs != [] {
      var init, last := xs[..|xs| - 1], xs[|xs| - 1];
      DistinctSize(init);
      assert (set x | x in xs) == (set x | x in init) + {last};
      assert last !in init;
    } else {
      assert (set x | x in xs) == {};
    }
  }

  lemma AcceptableExactly(items: seq<Item>, expected: seq<string>)
    requires Acceptable(Bundle(items), expected)
    ensures OneForEach(items, expected)
  {
    hide SafeRelPath;
    var safe := SafePaths(expected);
    var found := seq(|items|, i requires 0 <= i < |items| => ItemPath(items[i]));
    var have, want := set it | it in items :: ItemPath(it), set p | p in safe;
    assert have == want;
    DistinctSize(safe);
    DistinctSize(found);
    assert (set x | x in found) == have by {
      assert forall it :: it in items ==> ItemPath(it) in found by {
        forall it | it in items
          ensures ItemPath(it) in found
        {
          var i :| 0 <= i < |items| && items[i] == it;
          assert found[i] == ItemPath(it);
        }
      }
    }
    forall i | 0 <= i < |expected|
      ensures SafeRelPath(expected[i]) != "" && Offers(items, SafeRelPath(expected[i]))
    {
      assert safe[i] in safe;
      assert safe[i] in want;
      assert safe[i] in have;
    }
  }

  /** The contents by path, in the order asked for; `sanitize` is what becomes of one content. */
  method ValidatedBundle(reply: Reply, expected: seq<string>, sanitize: (string, string) -> string)
    returns (contents: Option<seq<(string, string)>>)
    ensures contents.Some? <==> Acceptable(reply, expected)
    ensures contents.Some? ==> |contents.value| == |expected|
                               && forall i :: 0 <= i < |expected| ==> contents.value[i].0 == SafeRelPath(expected[i])
    ensures contents.Some? ==>
              forall i, it :: 0 <= i < |expected| && it in reply.items && ItemPath(it) == SafeRelPath(expected[i]) ==>
                it.Item? && it.content.Some? && contents.value[i].1 == sanitize(it.content.value, ItemPath(it))
    ensures contents.Some? ==> reply.Bundle? && OneForEach(reply.items, expected)
  {
    hide SafeRelPath, ItemPath, DistinctStrings, OneForEach;
    if Acceptable(reply, expected) {
      AcceptableExactly(reply.items, expected);
    }
    if reply.Unusable? {
      return None;
    }
    var safe := SafePaths(expected);
    if "" in safe {
      return None;
    }
    var distinct := AllDistinct(safe);
    if !distinct {
      return None;
    }
    var found := CollectItems(reply.items, sanitize);
    if found.None? || found.value.Keys != set p | p in safe {
      return None;
    }
    assert forall i :: 0 <= i < |safe| ==> safe[i] in safe;
    return Some(seq(|safe|, i requires 0 <= i < |safe| => (safe[i], found.value[safe[i]])));
  }

  ghost predicate GoodItems(items: seq<Item>) {
    && (forall it :: it in items ==> GoodItem(it))
    && (forall i, j :: 0 <= i < j < |items| ==> ItemPath(items[i]) != ItemPath(items[j]))
  }

  /** `contents` holds the items' contents, each under its own path. */
  ghost predicate Collected(contents: map<string, string>, items: seq<Item>, sanitize: (string, string) -> string) {
    && GoodItems(items)
    && contents.Keys == (set it | it in items :: ItemPath(it))
    && forall it :: it in items ==> contents[ItemPath(it)] == sanitize(it.content.value, ItemPath(it))
  }

  lemma CollectedNext(contents: map<string, string>, items: seq<Item>, it: Item, sanitize: (string, string) -> string)
    requires Collected(contents, items, sanitize) && GoodItem(it)
    ensures ItemPath(it) !in contents ==>
              Collected(contents[ItemPath(it) := sanitize(it.content.value, ItemPath(it))], items + [it], sanitize)
    ensures ItemPath(it) in contents ==> exists k :: 0 <= k < |items| && ItemPath(items[k]) == ItemPath(it)
  {
    hide GoodItem, ItemPath;
    assert it in items + [it];
    assert forall k :: 0 <= k < |items| ==> items[k] in items;
  }

  /** The files of a reply by path, unless one is malformed or comes twice. */
  method CollectItems(items: seq<Item>, sanitize: (string, string) -> string)
    returns (found: Option<map<string, string>>)
    ensures found.Some? <==> GoodItems(items)
    ensures found.Some? ==> Collected(found.value, items, sanitize)
  {
    hide SafeRelPath, Blank, Collected;
    var contents: map<string, string> := map[];
    NothingCollected(sanitize);
    assert items[..0] == [];
    for i := 0 to |items|
      invariant Collected(contents, items[..i], sanitize)
    {
      var it := items[i];
      assert it in items && items[..i + 1] == items[..i] + [it];
      if it.Junk? {
        return None;
      }
      var path := SafeRelPath(it.path);
      if path == "" || it.content.None? || Blank(it.content.value) {
        return None;
      }
      CollectedNext(contents, items[..i], it, sanitize);
      if path in contents {
        return None;
      }
      contents := contents[path := sanitize(it.content.value, path)];
    }
    assert items[..|items|] == items;
    CollectedGood(contents, items, sanitize);
    found := Some(contents);
  }

  lemma NothingCollected(sanitize: (string, string) -> string)
    ensures Collected(map[], [], sanitize)
  {
  }

  lemma CollectedGood(contents: map<string, string>, items: seq<Item>, sanitize: (string, string) -> string)
    requires Collected(contents, items, sanitize)
    ensures GoodItems(items)
  {
  }

  method AllDistinct(xs: seq<string>) returns (distinct: bool)
    ensures distinct <==> DistinctStrings(xs)
  {
    var seen := {};
    for i := 0 to |xs|
      invariant seen == set k | 0 <= k < i :: xs[k]
      invariant |seen| <= i
      invariant |seen| == i <==> DistinctStrings(xs[..i])
    {
      assert xs[..i + 1][..i] == xs[..i];
      assert DistinctStrings(xs[..i + 1]) <==> DistinctStrings(xs[..i]) && xs[i] !in seen by {
        assert forall k :: 0 <= k < i ==> xs[..i + 1][k] == xs[k] && xs[..i][k] == xs[k];
        assert xs[..i + 1][i] == xs[i];
      }
      seen := seen + {xs[i]};
    }
    assert xs[..|xs|] == xs;
    distinct := |seen| == |xs|;
  }

  /** A path that cleaning leaves as it is; the planner cleans every path once. */
  predicate Clean(path: string) {
    path != "" && SafeRelPath(path) == path
  }

  // ---- what cleaning guarantees ----------------------------------------------------------------

  /** What `split("/")` gives. */
  function Parts(s: string): (parts: seq<string>)
    ensures parts != []
  {
    if s == "" then [""]
    else
      var parts := Parts(s[1..]);
      if s[0] == '/' then [""] + parts else [[s[0]] + parts[0]] + parts[1..]
  }

  lemma FirstPart(s: string)
    ensures Parts(s)[0] == "" <==> s == "" || s[0] == '/'
    ensures Parts(s)[0] == "." <==> s != "" && s[0] == '.' && (|s| == 1 || s[1] == '/')
    ensures Parts(s)[0] == ".." <==> ClimbsAt(s, 0)
  {
    if s != "" && s[0] != '/' {
      var t := s[1..];
      if t != "" && t[0] != '/' {
        var u := t[1..];
        assert u != "" && u[0] != '/' ==> |Parts(u)[0]| > 0;
      }
    }
  }

  lemma {:induction false} ClimbsByParts(s: string)
    ensures ".." in Parts(s)[1..] <==> exists i :: i > 0 && ClimbsAt(s, i)
  {
    if s != "" {
      ClimbsByParts(s[1..]);
      FirstPart(s[1..]);
      forall i: nat
        ensures ClimbsAt(s, i + 1) <==> (i > 0 || s[0] == '/') && ClimbsAt(s[1..], i)
      {
      }
      if i: nat :| i > 0 && ClimbsAt(s, i) {
        assert ClimbsAt(s[1..], i - 1);
      }
      if i: nat :| i > 0 && ClimbsAt(s[1..], i) {
        assert ClimbsAt(s, i + 1);
      }
      if s[0] == '/' {
        assert Parts(s)[1..] == Parts(s[1..]);
        assert Parts(s[1..]) == [Parts(s[1..])[0]] + Parts(s[1..])[1..];
        assert ClimbsAt(s[1..], 0) ==> ClimbsAt(s, 1);
      } else {
        assert Parts(s)[1..] == Parts(s[1..])[1..];
      }
    }
  }

  lemma ClimbsExactly(s: string)
    ensures ClimbsUp(s) <==> ".." in Parts(s)
  {
    hide Parts;
    ClimbsByParts(s);
    FirstPart(s);
    assert Parts(s) == [Parts(s)[0]] + Parts(s)[1..];
  }

  /** A cleaned path never steps up, has forward slashes only and no space at its end. */
  lemma CleanedStaysInside(path: string)
    ensures
      var r := SafeRelPath(path);
      r != "" ==> ".." !in Parts(r) && '\\' !in r && !IsSpace(r[|r| - 1])
  {
    hide ClimbsUp, StripLeft, StripRight, DropSlashes, Parts;
    var t := StripRight(StripLeft(path));
    StripRightEnds(StripLeft(path));
    DropSlashesEnds(t);
    ClimbsExactly(SafeRelPath(path));
  }

  /** The paths that cleaning leaves as they are. */
  lemma CleanExactly(path: string)
    ensures Clean(path) <==>
              && path != "" && !IsSpace(path[0]) && path[0] != '/' && !IsSpace(path[|path| - 1])
              && '\\' !in path && ".." !in Parts(path)
  {
    hide ClimbsUp, Parts;
    ClimbsExactly(path);
    CleanedStaysInside(path);
    if path != "" {
      StripLeftShorter(path);
      SafeNotLonger(path);
      if !IsSpace(path[0]) && path[0] != '/' && !IsSpace(path[|path| - 1]) && '\\' !in path {
        assert StripLeft(path) == path && StripRight(path) == path && DropSlashes(path) == path;
        assert Slashes(path) == path;
      }
    }
  }

  // ---- cleaning twice ------------------------------------------------------------------------------

  lemma {:induction false} StripRightEnds(s: string)
    ensures StripRight(s) <= s
    ensures StripRight(s) != [] ==> !IsSpace(StripRight(s)[|StripRight(s)| - 1])
  {
    if s != [] && IsSpace(s[|s| - 1]) {
      StripRightEnds(s[..|s| - 1]);
    }
  }

  lemma {:induction false} DropSlashesEnds(s: string)
    ensures |DropSlashes(s)| <= |s|
    ensures DropSlashes(s) != [] ==> DropSlashes(s)[|DropSlashes(s)| - 1] == s[|s| - 1]
  {
    if s != [] && s[0] == '/' {
      DropSlashesEnds(s[1..]);
    }
  }

  lemma {:induction false} StripLeftShorter(s: string)
    ensures |StripLeft(s)| <= |s|
    ensures s != [] && IsSpace(s[0]) ==> |StripLeft(s)| < |s|
  {
    if s != [] && IsSpace(s[0]) {
      StripLeftShorter(s[1..]);
    }
  }

  lemma SafeNotLonger(s: string)
    ensures |SafeRelPath(s)| <= |StripLeft(s)|
    ensures StripLeft(s) != [] && StripLeft(s)[0] == '/' ==> SafeRelPath(s) == "" || |SafeRelPath(s)| < |StripLeft(s)|
  {
    hide ClimbsUp, StripLeft, StripRight;
    var t := StripRight(StripLeft(s));
    StripRightEnds(StripLeft(s));
    DropSlashesEnds(t);
    if t != [] && t[0] == '/' {
      DropSlashesEnds(t[1..]);
    }
  }

  /**
    Cleaning is not always settled after one pass: trimming happens before leading slashes
    are dropped and before backslashes are turned.  A cleaned path is clean exactly when it
    does not begin with a space or a slash.
   */
  lemma CleanedOnce(path: string)
    requires SafeRelPath(path) != ""
    ensures Clean(SafeRelPath(path)) <==> !IsSpace(SafeRelPath(path)[0]) && SafeRelPath(path)[0] != '/'
  {
    var r := SafeRelPath(path);
    var trimmed := StripRight(StripLeft(path));
    StripRightEnds(StripLeft(path));
    DropSlashesEnds(trimmed);
    assert !IsSpace(r[|r| - 1]);
    StripLeftShorter(r);
    SafeNotLonger(r);
    if !IsSpace(r[0]) && r[0] != '/' {
      assert StripLeft(r) == r && StripRight(r) == r && DropSlashes(r) == r;
      assert Slashes(r) == r;
    }
  }

  // ---- asking, applying, checking ---------------------------------------------------------------

  datatype Stop = Late | Rejected

  datatype Applied = Done | Denied | Failed

  /** How many model calls and applications were made, and how many bundles were begun, so far. */
  datatype Counts = Counts(calls: nat, applications: nat, begun: nat)

  function Begin(at: Counts): Counts {
    at.(begun := at.begun + 1)
  }

  ghost predicate AllClean(files: seq<PlannedFile>) {
    forall f :: f in files ==> Clean(f.path)
  }

  /** `dict.fromkeys`: first occurrences, in order. */
  function Dedup(xs: seq<string>): seq<string> {
    if xs == [] then []
    else
      var init := Dedup(xs[..|xs| - 1]);
      if xs[|xs| - 1] in init then init else init + [xs[|xs| - 1]]
  }

  function Members(xs: seq<string>): set<string> {
    set x | x in xs
  }

  lemma {:induction false} DedupMembers(xs: seq<string>)
    ensures Members(Dedup(xs)) == Members(xs) && DistinctStrings(Dedup(xs))
    ensures DistinctStrings(xs) ==> Dedup(xs) == xs
  {
    if xs != [] {
      var init, last := xs[..|xs| - 1], xs[|xs| - 1];
      DedupMembers(init);
      assert xs == init + [last];
      assert Members(xs) == Members(init) + {last};
      assert last in Members(Dedup(init)) <==> last in Dedup(init);
    }
  }

  lemma PathMembers(files: seq<PlannedFile>)
    ensures Members(PathsOf(files)) == PathSet(files)
  {
    forall p | p in PathSet(files)
      ensures p in PathsOf(files)
    {
      var f :| f in files && f.path == p;
      var i :| 0 <= i < |files| && files[i] == f;
      assert PathsOf(files)[i] == p;
    }
  }

  function Capped(planned: seq<PlannedFile>, maxFiles: nat): seq<PlannedFile> {
    if maxFiles < |planned| then planned[..maxFiles] else planned
  }

  lemma DealtIsAll(files: seq<PlannedFile>, ms: seq<Milestone>, assignments: map<string, seq<PlannedFile>>)
    requires forall m :: m in ms ==> m.id in assignments
    requires multiset(Dealt(ms, assignments)) == multiset(files)
    ensures PathSet(Dealt(ms, assignments)) == PathSet(files) && |Dealt(ms, assignments)| == |files|
    ensures forall f :: f in Dealt(ms, assignments) <==> f in files
  {
    assert |multiset(Dealt(ms, assignments))| == |multiset(files)|;
    forall f
      ensures f in Dealt(ms, assignments) <==> f in files
    {
      assert f in multiset(Dealt(ms, assignments)) <==> f in multiset(files);
    }
  }

  lemma NothingYet(ms: seq<Milestone>, assignments: map<string, seq<PlannedFile>>)
    requires forall m :: m in ms ==> m.id in assignments
    ensures Dealt(ms[..0], assignments) == [] && PathSet([]) == Members([]) == {} && DistinctStrings([])
  {
  }

  lemma DealtNext(ms: seq<Milestone>, assignments: map<string, seq<PlannedFile>>, i: nat)
    requires i < |ms| && forall m :: m in ms ==> m.id in assignments
    ensures Dealt(ms[..i + 1], assignments) == Dealt(ms[..i], assignments) + assignments[ms[i].id]
    ensures PathSet(Dealt(ms[..i + 1], assignments))
        == PathSet(Dealt(ms[..i], assignments)) + PathSet(assignments[ms[i].id])
    ensures forall f :: f in assignments[ms[i].id] ==> f in Dealt(ms, assignments)
  {
    assert ms[..i + 1][..i] == ms[..i];
    DealtPrefixShorter(ms, assignments, i + 1);
  }

  lemma {:induction false} DealtPrefixShorter(ms: seq<Milestone>, assignments: map<string, seq<PlannedFile>>, i: nat)
    requires i <= |ms| && forall m :: m in ms ==> m.id in assignments
    ensures |Dealt(ms[..i], assignments)| <= |Dealt(ms, assignments)|
    ensures forall f :: f in Dealt(ms[..i], assignments) ==> f in Dealt(ms, assignments)
  {
    if i < |ms| {
      DealtPrefixShorter(ms[..|ms| - 1], assignments, i);
      assert ms[..|ms| - 1][..i] == ms[..i];
    } else {
      assert ms[..i] == ms;
    }
  }

  /** Nothing is listed that is not there: each path was a file before, or was written and kept. */
  ghost predicate OnDisk(paths: seq<string>, isFile: string -> bool, kept: set<string>) {
    forall p :: p in paths ==> isFile(p) || p in kept
  }

  lemma OnDiskJoins(xs: seq<string>, ys: seq<string>, isFile: string -> bool, kept: set<string>, kept': set<string>)
    requires OnDisk(xs, isFile, kept) && kept <= kept' && OnDisk(ys, isFile, kept')
    ensures OnDisk(xs + ys, isFile, kept') && OnDisk(Dedup(xs + ys), isFile, kept') && OnDisk(xs, isFile, kept')
    ensures OnDisk(Dedup(xs), isFile, kept)
  {
    hide Dedup;
    DedupMembers(xs);
    DedupMembers(xs + ys);
    assert forall p :: p in Dedup(xs + ys) <==> p in Members(Dedup(xs + ys));
    assert forall p :: p in Dedup(xs) <==> p in Members(Dedup(xs));
  }

  lemma FilesOnDisk(files: seq<PlannedFile>, isFile: string -> bool)
    requires forall f :: f in files ==> isFile(f.path)
    ensures OnDisk(PathsOf(files), isFile, {})
  {
    forall p | p in PathsOf(files)
      ensures isFile(p)
    {
      var i :| 0 <= i < |files| && PathsOf(files)[i] == p;
      assert files[i] in files;
    }
  }

  lemma NothingOnDisk(isFile: string -> bool, kept: set<string>)
    ensures OnDisk([], isFile, kept)
  {
  }

  lemma KeptOnDisk(xs: seq<string>, isFile: string -> bool, kept: set<string>)
    requires Members(xs) <= kept
    ensures OnDisk(xs, isFile, kept)
  {
    forall p | p in xs
      ensures p in kept
    {
      assert p in Members(xs);
    }
  }

  /** The planned paths that count are the first `maxFiles`. */
  lemma CappedPaths(planned: seq<PlannedFile>, maxFiles: nat)
    ensures PathSet(Capped(planned, maxFiles)) == set i | 0 <= i < |planned| && i < maxFiles :: planned[i].path
  {
    var files := Capped(planned, maxFiles);
    forall f | f in files
      ensures f.path in set i | 0 <= i < |planned| && i < maxFiles :: planned[i].path
    {
      var i :| 0 <= i < |files| && files[i] == f;
      assert planned[i] == f;
    }
    forall i | 0 <= i < |planned| && i < maxFiles
      ensures planned[i].path in PathSet(files)
    {
      assert files[i] == planned[i] && files[i] in files;
    }
  }

  /**
    The generator and its surroundings: what the model answers to its n-th call, how the
    n-th application and the n-th structural check go, and when the deadline has passed.
   */
  class Generator {
    const replies: nat -> Reply
    const applications: nat -> Applied
    const sound: nat -> bool
    const late: nat -> bool
    const sanitize: (string, string) -> string
    var calls: nat
    var applied: nat
    var begun: nat
    ghost var kept: set<string>   // the paths of every bundle that was written and not rolled back

    constructor (replies: nat -> Reply, applications: nat -> Applied, sound: nat -> bool, late: nat -> bool,
                 sanitize: (string, string) -> string)
      ensures Now() == Counts(0, 0, 0) && kept == {}
      ensures this.replies == replies && this.applications == applications && this.sound == sound && this.late == late
    {
      this.replies, this.applications, this.sound, this.late, this.sanitize := replies, applications, sound, late,
          sanitize;
      calls, applied, begun, kept := 0, 0, 0, {};
    }

    function Now(): Counts
      reads this`calls, this`applied, this`begun
    {
      Counts(calls, applied, begun)
    }

    /** One model call; a timeout or a failed call is an unusable reply. */
    method GenerateFileBundle(files: seq<PlannedFile>) returns (paths: Option<seq<string>>)
      requires AllClean(files)
      modifies this`calls
      ensures calls == old(calls) + 1
      ensures paths.Some? <==> Acceptable(replies(old(calls)), PathsOf(files))
      ensures paths.Some? ==> paths.value == PathsOf(files)
    {
      var reply := replies(calls);
      calls := calls + 1;
      var contents := ValidatedBundle(reply, PathsOf(files), sanitize);
      if contents.None? {
        return None;
      }
      paths := Some(seq(|contents.value|, i requires 0 <= i < |contents.value| => contents.value[i].0));
      hide SafeRelPath;
      forall i | 0 <= i < |files|
        ensures paths.value[i] == files[i].path
      {
        assert files[i] in files;
      }
    }

    /** The n-th application goes through and what it wrote passes the structural check. */
    predicate Lands(n: nat) {
      applications(n).Done? && sound(n)
    }

    /** Replies from the n-th on answer the files of the bundle one by one. */
    ghost predicate EachAccepted(chunk: seq<PlannedFile>, n: nat) {
      forall i :: 0 <= i < |chunk| ==> Acceptable(replies(n + i), [chunk[i].path])
    }

    /**
      When a bundle gets written: at once; or by a second whole bundle, unless approval was
      denied; or, its first reply being unusable, file by file if it has several files.
     */
    ghost predicate ChunkLands(chunk: seq<PlannedFile>, at: Counts) {
      var again := Acceptable(replies(at.calls + 1), PathsOf(chunk));
      if Acceptable(replies(at.calls), PathsOf(chunk)) then
        Lands(at.applications) || (!applications(at.applications).Denied? && again && Lands(at.applications + 1))
      else if |chunk| > 1 then EachAccepted(chunk, at.calls + 1) && Lands(at.applications)
      else again && Lands(at.applications)
    }

    /** What a bundle costs: a second whole bundle, or one call for each file, if the first does not settle it. */
    ghost function AfterChunk(chunk: seq<PlannedFile>, at: Counts): Counts {
      var again := Acceptable(replies(at.calls + 1), PathsOf(chunk));
      if Acceptable(replies(at.calls), PathsOf(chunk)) then
        if Lands(at.applications) || applications(at.applications).Denied? then
          Counts(at.calls + 1, at.applications + 1, at.begun)
        else
          Counts(at.calls + 2, at.applications + (if again then 2 else 1), at.begun)
      else if |chunk| > 1 then
        Counts(at.calls + 1 + |chunk|, at.applications + (if EachAccepted(chunk, at.calls + 1) then 1 else 0), at.begun)
      else
        Counts(at.calls + 2, at.applications + (if again then 1 else 0), at.begun)
    }

    /** The counts when it is the `k`-th bundle's turn. */
    ghost function At(chunks: seq<seq<PlannedFile>>, k: nat, start: Counts): Counts
      requires k <= |chunks|
    {
      if k == 0 then start else AfterChunk(chunks[k - 1], Begin(At(chunks, k - 1, start)))
    }

    /** An application that may be followed by another: it was not denied, and failed or was unsound. */
    predicate TriedAgain(a: nat) {
      !applications(a).Denied? && !(applications(a).Done? && sound(a))
    }

    lemma TriedAgainOr(a: nat)
      ensures TriedAgain(a) <==> !applications(a).Denied? && !(applications(a).Done? && sound(a))
    {
    }

    /** Of these calls, each file was answered by one for the whole bundle or by one of its own. */
    ghost predicate EachAnswered(chunk: seq<PlannedFile>, from: nat, to: nat) {
      forall f :: f in chunk ==>
        exists n :: from <= n < to && (Acceptable(replies(n), PathsOf(chunk)) || Acceptable(replies(n), [f.path]))
    }

    lemma AnsweredAtOnce(chunk: seq<PlannedFile>, from: nat, to: nat)
      requires from < to && Acceptable(replies(to - 1), PathsOf(chunk))
      ensures EachAnswered(chunk, from, to)
    {
      hide Acceptable;
    }

    lemma AnsweredApart(chunk: seq<PlannedFile>, from: nat, to: nat)
      requires from + |chunk| <= to && EachAccepted(chunk, to - |chunk|)
      ensures EachAnswered(chunk, from, to)
    {
      hide Acceptable;
      forall f | f in chunk
        ensures
          exists n ::
            from <= n < to && (Acceptable(replies(n), PathsOf(chunk)) || Acceptable(replies(n), [f.path]))
      {
        var i :| 0 <= i < |chunk| && chunk[i] == f;
        assert Acceptable(replies(to - |chunk| + i), [chunk[i].path]);
      }
    }

    /** The fallback after a rejected bundle: each file by itself; all of them or none. */
    method SplitBundle(chunk: seq<PlannedFile>) returns (paths: Option<seq<string>>)
      requires AllClean(chunk)
      modifies this`calls
      ensures calls == old(calls) + |chunk|
      ensures paths.Some? <==> EachAccepted(chunk, old(calls))
      ensures paths.Some? ==> paths.value == PathsOf(chunk)
    {
      var written: seq<string> := [];
      var failed := false;
      for i := 0 to |chunk|
        invariant calls == old(calls) + i
        invariant !failed ==> written == PathsOf(chunk[..i])
        invariant failed <==> exists k :: 0 <= k < i && !Acceptable(replies(old(calls) + k), [chunk[k].path])
      {
        assert chunk[i] in chunk;
        var one := GenerateFileBundle([chunk[i]]);
        assert PathsOf([chunk[i]]) == [chunk[i].path];
        if one.None? {
          failed := true;
        } else {
          written := written + one.value;
        }
        assert PathsOf(chunk[..i + 1]) == PathsOf(chunk[..i]) + PathsOf([chunk[i]]);
      }
      assert chunk[..|chunk|] == chunk;
      paths := if failed then None else Some(written);
    }

    /**
      One bundle, at most twice.  After a first rejection a bundle of several files is split;
      once split, nothing is tried again.
     */
    method GenerateChunk(chunk: seq<PlannedFile>) returns (written: Option<seq<string>>)
      requires AllClean(chunk) && chunk != []
      modifies this`calls, this`applied, this`kept
      ensures written.Some? <==> ChunkLands(chunk, old(Now()))
      ensures written.Some? ==> written.value == PathsOf(chunk)
      ensures Now() == AfterChunk(chunk, old(Now()))
      ensures old(calls) < calls <= old(calls) + if |chunk| == 1 then 2 else 1 + |chunk|
      ensures kept == old(kept) + if written.Some? then PathSet(chunk) else {}
      ensures old(applied) <= applied <= old(applied) + 2
      ensures written.Some? ==> applied > old(applied) && applications(applied - 1).Done? && sound(applied - 1)
      ensures forall a :: old(applied) <= a < applied - 1 ==> TriedAgain(a)
      ensures written.None? && applied > old(applied) ==> !(applications(applied - 1).Done? && sound(applied - 1))
      ensures written.Some? ==> EachAnswered(chunk, old(calls), calls)
    {
      hide Acceptable, PathSet, PathsOf, EachAnswered, TriedAgain, EachAccepted;
      written := None;
      ghost var start := Now();
      var split, attempt := false, 1;
      while attempt <= MAX_BUNDLE_ATTEMPTS
        invariant 1 <= attempt <= MAX_BUNDLE_ATTEMPTS + 1
        invariant !split && written.None? && kept == old(kept)
        invariant attempt == 1 ==> Now() == start
        invariant start.applications <= applied < start.applications + attempt
        invariant forall a :: start.applications <= a < applied ==> TriedAgain(a)
        invariant applied > start.applications ==> !(applications(applied - 1).Done? && sound(applied - 1))
        invariant attempt == 2 ==>
                    var taken := Acceptable(replies(calls), PathsOf(chunk));
                    && calls == start.calls + 1
                    && ChunkLands(chunk, start) == (taken && Lands(applied))
                    && AfterChunk(chunk, start) == Counts(calls + 1, applied + (if taken then 1 else 0), begun)
        invariant attempt == 3 ==> !ChunkLands(chunk, start) && Now() == AfterChunk(chunk, start)
      {
        var paths := GenerateFileBundle(chunk);
        if paths.None? && attempt == 1 && |chunk| > 1 {
          paths := SplitBundle(chunk);
          split := true;
          if paths.None? {
            break;
          }
          AnsweredApart(chunk, start.calls, calls);
        } else if paths.Some? {
          AnsweredAtOnce(chunk, start.calls, calls);
        }
        if paths.Some? {
          TriedAgainOr(applied);
          var outcome := applications(applied);
          var ok := sound(applied);
          applied := applied + 1;
          if outcome.Done? && ok {
            written := paths;
            kept := kept + PathSet(chunk);
            break;
          }
          if outcome.Denied? || split {
            break;
          }
        }
        attempt := attempt + 1;
      }
    }

    /** Bundles were begun in time and written, each at the counts the ones before it left. */
    ghost predicate InTurn(chunks: seq<seq<PlannedFile>>, k: nat, start: Counts)
      requires k <= |chunks|
    {
      forall j :: 0 <= j < k ==> !late(At(chunks, j, start).begun) && ChunkLands(chunks[j], Begin(At(chunks, j, start)))
    }

    lemma NoneInTurn(chunks: seq<seq<PlannedFile>>, start: Counts)
      ensures At(chunks, 0, start) == start && InTurn(chunks, 0, start)
    {
    }

    lemma NextInTurn(chunks: seq<seq<PlannedFile>>, k: nat, start: Counts)
      requires k < |chunks| && InTurn(chunks, k, start)
      ensures
        var at := At(chunks, k, start);
        && At(chunks, k + 1, start) == AfterChunk(chunks[k], Begin(at))
        && (InTurn(chunks, k + 1, start) <==> !late(at.begun) && ChunkLands(chunks[k], Begin(at)))
    {
      hide ChunkLands, AfterChunk;
    }

    /**
      How far a milestone's bundles got: the first `k` were begun in time and written, each at
      the counts the ones before it left; the next one came too late or could not be written.
     */
    ghost predicate Progressed(files: seq<PlannedFile>, k: int, start: Counts, end: Counts, stop: Option<Stop>) {
      var chunks := Chunks(files);
      && 0 <= k <= |chunks| && (stop.None? <==> k == |chunks|)
      && InTurn(chunks, k, start)
      && match stop
         case None => end == At(chunks, k, start)
         case Some(Late) => late(At(chunks, k, start).begun) && end == Begin(At(chunks, k, start))
         case Some(Rejected) =>
           && !late(At(chunks, k, start).begun) && !ChunkLands(chunks[k], Begin(At(chunks, k, start)))
           && end == At(chunks, k + 1, start)
    }

    /** The files of a milestone's first `k` bundles. */
    ghost function FirstBundles(files: seq<PlannedFile>, k: int): seq<PlannedFile> {
      if 0 <= k <= |Chunks(files)| then Flatten(Chunks(files)[..k]) else []
    }

    /**
      One milestone's bundles in order.  Stops at the deadline or at a bundle that could not
      be written; what it returns are the files of the bundles before that, in plan order.
     */
    method GenerateMilestone(files: seq<PlannedFile>) returns (written: seq<string>, stop: Option<Stop>, ghost k: nat)
      requires AllClean(files)
      modifies this`calls, this`applied, this`begun, this`kept
      ensures Progressed(files, k, old(Now()), Now(), stop)
      ensures written == PathsOf(FirstBundles(files, k))
      ensures kept == old(kept) + PathSet(FirstBundles(files, k))
      ensures old(calls) <= calls <= old(calls) + 2 * |files|
      ensures calls <= old(calls) + 4 * |Chunks(files)|
    {
      hide ChunkLands, AfterChunk, Chunks, Flatten, PathsOf, PathSet, Clean, At, InTurn;
      written := [];
      NoPaths();
      ghost var start := Now();
      var chunks := Chunks(files);
      ChunksPartition(files);
      FlattenNothing(chunks);
      NoneInTurn(chunks, start);
      k := 0;
      for i := 0 to |chunks|
        invariant k == i
        invariant written == PathsOf(Flatten(chunks[..i]))
        invariant kept == old(kept) + PathSet(Flatten(chunks[..i]))
        invariant old(calls) <= calls <= old(calls) + 2 * |Flatten(chunks[..i])|
        invariant calls <= old(calls) + 4 * i
        invariant Now() == At(chunks, i, start) && InTurn(chunks, i, start)
      {
        var chunk := chunks[i];
        NextInTurn(chunks, i, start);
        FlattenNext(chunks, i);
        PathsNext(chunks, i);
        var tooLate := late(begun);
        begun := begun + 1;
        if tooLate {
          return written, Some(Late), k;
        }
        var paths := GenerateChunk(chunk);
        if paths.None? {
          return written, Some(Rejected), k;
        }
        written := written + paths.value;
        k := i + 1;
      }
      assert chunks[..|chunks|] == chunks;
      stop := None;
    }

    /** Finished by an earlier run, with every file still on disk. */
    ghost predicate TakenOver(id: string, files: seq<PlannedFile>, statuses: map<string, string>,
                              isFile: string -> bool) {
      && id in statuses && statuses[id] in {"implemented", "verified"}
      && forall f :: f in files ==> isFile(f.path)
    }

    /**
      One milestone of the whole build: without files it is passed over, finished earlier it
      is taken over, otherwise it is generated.
     */
    method BuildMilestone(id: string, mine: seq<PlannedFile>, statuses: map<string, string>, isFile: string -> bool)
      returns (written: seq<string>, stop: Option<Stop>, ghost k: nat)
      requires AllClean(mine)
      modifies this`calls, this`applied, this`begun, this`kept
      ensures old(calls) <= calls <= old(calls) + 2 * |mine|
      ensures TakenOver(id, mine, statuses, isFile) ==>
                stop.None? && Now() == old(Now()) && kept == old(kept)
      ensures !TakenOver(id, mine, statuses, isFile) ==>
                && Progressed(mine, k, old(Now()), Now(), stop)
                && kept == old(kept) + PathSet(FirstBundles(mine, k))
                && Members(written) == PathSet(FirstBundles(mine, k))
      ensures stop.None? ==> Members(written) == PathSet(mine)
      ensures
        var finished := id in statuses && (statuses[id] == "implemented" || statuses[id] == "verified");
        finished && (forall f :: f in mine ==> isFile(f.path)) ==>
          stop.None? && calls == old(calls) && applied == old(applied)
      ensures OnDisk(written, isFile, kept)
    {
      hide ChunkLands, AfterChunk, Flatten, Clean, PathsOf, PathSet, Members, Chunks, OnDisk;
      k := 0;
      NoChunks();
      PathMembers(mine);
      if mine == [] {
        NothingOnDisk(isFile, kept);
        return [], None, 0;
      }
      var finished := id in statuses && statuses[id] in {"implemented", "verified"};
      if finished && forall f :: f in mine ==> isFile(f.path) {
        FilesOnDisk(mine, isFile);
        NothingOnDisk(isFile, kept);
        OnDiskJoins(PathsOf(mine), [], isFile, {}, kept);
        return PathsOf(mine), None, 0;
      }
      written, stop, k := GenerateMilestone(mine);
      ChunksPartition(mine);
      assert Chunks(mine)[..|Chunks(mine)|] == Chunks(mine);
      PathMembers(FirstBundles(mine, k));
      KeptOnDisk(written, isFile, kept);
    }

    lemma NoChunks()
      ensures Chunks([]) == [] && Flatten([]) == [] && PathSet([]) == {} && Members([]) == {} && PathsOf([]) == []
    {
    }

    /** Milestones were taken over, or built from one pair of counts to the next. */
    ghost predicate BuiltInTurn(ms: seq<Milestone>, assignments: map<string, seq<PlannedFile>>, counts: seq<Counts>,
                                statuses: map<string, string>, isFile: string -> bool)
      requires forall m :: m in ms ==> m.id in assignments
    {
      && |counts| == |ms| + 1
      && forall j :: 0 <= j < |ms| ==>
           var mine := assignments[ms[j].id];
           if TakenOver(ms[j].id, mine, statuses, isFile) then counts[j + 1] == counts[j]
           else Progressed(mine, |Chunks(mine)|, counts[j], counts[j + 1], None)
    }

    /**
      The whole build, milestone by milestone.  Without an error every planned file has been
      written, each within one bundle of one milestone.  At the deadline the files of the
      milestone under way are not reported, although they were applied.
     */
    method GenerateMilestoneFiles(planned: seq<PlannedFile>, maxFiles: nat, ms: seq<Milestone>,
                                  statuses: map<string, string>, isFile: string -> bool)
      returns (written: seq<string>, stop: Option<Stop>,
               ghost assignments: map<string, seq<PlannedFile>>, ghost reached: nat, ghost k: nat,
               ghost counts: seq<Counts>)
      requires UniqueIds(ms) && AllClean(planned)
      modifies this`calls, this`applied, this`begun, this`kept
      ensures ms != [] ==> Assigns(assignments, Capped(planned, maxFiles), ms)
      ensures forall m :: m in ms ==> m.id in assignments
      ensures ms != [] ==> multiset(Dealt(ms, assignments)) == multiset(Capped(planned, maxFiles))
      ensures reached <= |ms| && (stop.None? <==> reached == |ms|)
      ensures BuiltInTurn(ms[..reached], assignments, counts, statuses, isFile) && counts[0] == old(Now())
      ensures stop.Some? ==>
                var mine := assignments[ms[reached].id];
                && !TakenOver(ms[reached].id, mine, statuses, isFile)
                && Progressed(mine, k, counts[reached], Now(), stop)
      ensures
        var before := PathSet(Dealt(ms[..reached], assignments));
        var begun := if stop.Some? then PathSet(FirstBundles(assignments[ms[reached].id], k)) else {};
        && Members(written) == (if stop == Some(Late) then before else before + begun)
        && kept + before == old(kept) + before + begun
      ensures stop.None? && ms != [] ==> Members(written) == PathSet(Capped(planned, maxFiles))
      ensures stop != Some(Late) ==> DistinctStrings(written)
      ensures OnDisk(written, isFile, kept)
      ensures stop.None? && ms != [] ==>
                Members(written) == set i | 0 <= i < |planned| && i < maxFiles :: planned[i].path
      ensures calls <= old(calls) + 2 * |Capped(planned, maxFiles)|
    {
      hide Dealt, UniqueIds, DistinctStrings, Clean, Chunks, Dedup, Assigns, Progressed, TakenOver, PathSet,
          FirstBundles, Members, BuiltInTurn, OnDisk, StagesRight, Even, InPlanOrder;
      var files := Capped(planned, maxFiles);
      CappedPaths(planned, maxFiles);
      NothingOnDisk(isFile, kept);
      assignments := map[];
      reached, k := 0, 0;
      counts := [Now()];
      var dealt := AssignFiles(files, ms);
      assignments := dealt;
      NothingYet(ms, assignments);
      NothingBuilt(ms, assignments, Now(), statuses, isFile);
      if ms == [] {
        return [], None, assignments, 0, 0, counts;
      }
      DealtIsAll(files, ms, assignments);
      written := [];
      for i := 0 to |ms|
        invariant reached == i
        invariant Members(written) == PathSet(Dealt(ms[..i], assignments))
        invariant OnDisk(written, isFile, kept)
        invariant kept + PathSet(Dealt(ms[..i], assignments)) == old(kept) + PathSet(Dealt(ms[..i], assignments))
        invariant old(calls) <= calls <= old(calls) + 2 * |Dealt(ms[..i], assignments)|
        invariant BuiltInTurn(ms[..i], assignments, counts, statuses, isFile)
        invariant |counts| == i + 1 && counts[0] == old(Now()) && counts[i] == Now()
      {
        var mine := dealt[ms[i].id];
        DealtNext(ms, assignments, i);
        assert AllClean(mine) by {
          assert forall f :: f in mine ==> f in Dealt(ms, assignments);
        }
        var these;
        ghost var keptBefore := kept;
        these, stop, k := BuildMilestone(ms[i].id, mine, statuses, isFile);
        MembersJoin(written, these);
        OnDiskJoins(written, these, isFile, keptBefore, kept);
        DealtPrefixShorter(ms, assignments, i + 1);
        if stop.Some? {
          if stop.value.Rejected? {
            DedupMembers(written + these);
            written := Dedup(written + these);
          }
          return;
        }
        BuiltNext(ms, i, assignments, counts, Now(), k, statuses, isFile);
        AllBundles(mine, k);
        written := written + these;
        counts := counts + [Now()];
        reached := i + 1;
      }
      assert ms[..|ms|] == ms;
      DedupMembers(written);
      NothingOnDisk(isFile, kept);
      OnDiskJoins(written, [], isFile, kept, kept);
      written := Dedup(written);
      stop := None;
    }

    lemma NothingBuilt(ms: seq<Milestone>, assignments: map<string, seq<PlannedFile>>, now: Counts,
                       statuses: map<string, string>, isFile: string -> bool)
      requires forall m :: m in ms ==> m.id in assignments
      ensures BuiltInTurn(ms[..0], assignments, [now], statuses, isFile)
    {
    }

    lemma BuiltNext(ms: seq<Milestone>, i: nat, assignments: map<string, seq<PlannedFile>>, counts: seq<Counts>,
                    now: Counts, k: nat,
                    statuses: map<string, string>, isFile: string -> bool)
      requires i < |ms| && forall m :: m in ms ==> m.id in assignments
      requires BuiltInTurn(ms[..i], assignments, counts, statuses, isFile)
      requires
        if TakenOver(ms[i].id, assignments[ms[i].id], statuses, isFile) then now == counts[i]
        else Progressed(assignments[ms[i].id], k, counts[i], now, None)
      ensures BuiltInTurn(ms[..i + 1], assignments, counts + [now], statuses, isFile)
    {
      hide ChunkLands, AfterChunk, TakenOver, Chunks;
    }

    lemma AllBundles(files: seq<PlannedFile>, k: nat)
      ensures k == |Chunks(files)| ==> FirstBundles(files, k) == files
    {
      ChunksPartition(files);
      assert Chunks(files)[..|Chunks(files)|] == Chunks(files);
    }

    lemma MembersJoin(xs: seq<string>, ys: seq<string>)
      ensures Members(xs + ys) == Members(xs) + Members(ys)
    {
    }
  }
  // ---- what the deadline hides ------------------------------------------------------------------

  lemma OccursTwice(fs: seq<PlannedFile>, f: PlannedFile, g: PlannedFile)
    requires DistinctStrings(PathsOf(fs)) && f in fs && g in fs && f.path == g.path
    ensures f == g && multiset(fs)[f] == 1
  {
    var i :| 0 <= i < |fs| && fs[i] == f;
    var j :| 0 <= j < |fs| && fs[j] == g;
    assert PathsOf(fs)[i] == PathsOf(fs)[j];
    assert fs == fs[..i] + [f] + fs[i + 1..];
    forall k | 0 <= k < |fs| && k != i
      ensures fs[k] != f
    {
      assert PathsOf(fs)[k] != PathsOf(fs)[i];
    }
    assert f !in fs[..i] && f !in fs[i + 1..];
  }

  lemma {:induction false} DealtPrefixBag(ms: seq<Milestone>, assignments: map<string, seq<PlannedFile>>, i: nat)
    requires i <= |ms| && forall m :: m in ms ==> m.id in assignments
    ensures multiset(Dealt(ms[..i], assignments)) <= multiset(Dealt(ms, assignments))
  {
    if i < |ms| {
      DealtPrefixBag(ms[..|ms| - 1], assignments, i);
      assert ms[..|ms| - 1][..i] == ms[..i];
    } else {
      assert ms[..i] == ms;
    }
  }

  /** Distinct planned paths: no file of one milestone is a file of the milestones before it. */
  lemma MilestonesApart(files: seq<PlannedFile>, ms: seq<Milestone>, assignments: map<string, seq<PlannedFile>>, i: nat)
    requires i < |ms| && forall m :: m in ms ==> m.id in assignments
    requires multiset(Dealt(ms, assignments)) == multiset(files) && DistinctStrings(PathsOf(files))
    ensures PathSet(Dealt(ms[..i], assignments)) !! PathSet(assignments[ms[i].id])
  {
    hide Dealt, DistinctStrings;
    var before, mine := Dealt(ms[..i], assignments), assignments[ms[i].id];
    DealtNext(ms, assignments, i);
    DealtPrefixBag(ms, assignments, i + 1);
    var both := multiset(Dealt(ms[..i + 1], assignments));
    assert both == multiset(before) + multiset(mine);
    forall f, g | f in before && g in mine
      ensures f.path != g.path
    {
      assert f in multiset(before) && g in multiset(mine);
      assert f in both && g in both && f in multiset(files) && g in multiset(files);
      assert f == g ==> both[f] >= 2;
      if f.path == g.path {
        OccursTwice(files, f, g);
      }
    }
  }

  /**
    At the deadline the report, `before`, leaves out what was applied for the milestone under
    way.  With distinct planned paths it is complete exactly when no bundle of that milestone
    had been written yet.
   */
  lemma DeadlineReportExactly(files: seq<PlannedFile>, ms: seq<Milestone>, assignments: map<string, seq<PlannedFile>>,
                              reached: nat, k: nat,
                              before: set<string>, begun: set<string>)
    requires reached < |ms| && forall m :: m in ms ==> m.id in assignments
    requires multiset(Dealt(ms, assignments)) == multiset(files) && DistinctStrings(PathsOf(files))
    requires k <= |Chunks(assignments[ms[reached].id])|
    requires before == PathSet(Dealt(ms[..reached], assignments))
    requires begun == PathSet(Flatten(Chunks(assignments[ms[reached].id])[..k]))
    ensures before == before + begun <==> k == 0
  {
    hide Dealt, DistinctStrings, Chunks;
    var mine := assignments[ms[reached].id];
    var chunks := Chunks(mine);
    MilestonesApart(files, ms, assignments, reached);
    ChunksPartition(mine);
    FlattenNothing(chunks);
    if k > 0 {
      FlattenNext(chunks, k - 1);
      var f := chunks[k - 1][0];
      assert f in Flatten(chunks[..k]) && f in mine;
      assert f.path in begun && f.path in PathSet(mine);
    }
  }

  // ---- an input that shows it ---------------------------------------------------------------------

  lemma OneLetterClean(path: string)
    requires path in ["a", "b", "c", "d"]
    ensures Clean(path)
  {
    assert StripLeft(path) == path && StripRight(path) == path && DropSlashes(path) == path && Slashes(path) == path;
  }

  function FourFiles(): seq<PlannedFile> {
    [PlannedFile("a", 0), PlannedFile("b", 0), PlannedFile("c", 0), PlannedFile("d", 0)]
  }

  function ThreeItems(): seq<Item> {
    [Item("a", Some("x")), Item("b", Some("x")), Item("c", Some("x"))]
  }

  lemma FourFilesCut()
    ensures Chunks(FourFiles()) == [FourFiles()[..3], FourFiles()[3..]]
    ensures |FourFiles()| == 4 && PathsOf(FourFiles()[..3]) == ["a", "b", "c"] && AllClean(FourFiles())
    ensures PathSet(Flatten(Chunks(FourFiles())[..1])) == {"a", "b", "c"}
  {
    hide Clean;
    var rest := FourFiles()[3..];
    assert Chunks(rest) == [rest];
    assert Chunks(FourFiles())[..1] == [FourFiles()[..3]];
    assert Flatten([FourFiles()[..3]]) == FourFiles()[..3] + Flatten([]);
    assert PathsOf(FourFiles()[..3]) == ["a", "b", "c"];
    ThreePaths(FourFiles()[..3]);
    forall f | f in FourFiles()
      ensures Clean(f.path)
    {
      OneLetterClean(f.path);
    }
  }

  lemma ThreePaths(files: seq<PlannedFile>)
    requires |files| == 3
    ensures PathSet(files) == {files[0].path, files[1].path, files[2].path}
  {
    assert files == [files[0], files[1], files[2]];
    assert forall i :: 0 <= i < 3 ==> files[i] in files;
  }

  lemma OneItem(path: string)
    requires path in ["a", "b", "c", "d"]
    ensures GoodItem(Item(path, Some("x"))) && ItemPath(Item(path, Some("x"))) == path == SafeRelPath(path)
        && path != ""
  {
    hide SafeRelPath;
    OneLetterClean(path);
    assert 'x' in "x";
  }

  lemma ThreeItemsAccepted()
    ensures Acceptable(Bundle(ThreeItems()), ["a", "b", "c"])
  {
    hide SafeRelPath, GoodItem, ItemPath, Blank;
    OneItem("a");
    OneItem("b");
    OneItem("c");
    var expected, items := ["a", "b", "c"], ThreeItems();
    assert SafePaths(expected) == expected;
    assert items == [items[0], items[1], items[2]] && expected == [expected[0], expected[1], expected[2]];
    assert items[0] in items && items[1] in items && items[2] in items;
    assert (set it | it in items :: ItemPath(it)) == {"a", "b", "c"} == (set p | p in expected);
  }

  lemma {:induction false} OnlyOwner(files: seq<PlannedFile>, m: Milestone)
    ensures AssignedTo(files, [m], m.id) == files
  {
    if files != [] {
      var k := |files| - 1;
      OnlyOwner(files[..k], m);
      OneCandidate(m, files[k].base);
      assert files == files[..k] + [files[k]];
    }
  }

  lemma OneCandidate(m: Milestone, base: int)
    ensures Candidates([m], base) == [m]
  {
    assert [m][..0] == [] && WithBase([], base) == [];
  }

  /** One milestone of four files; the deadline passes between its two bundles. */
  lemma StopsAfterThree(g: Generator, k: int, end: Counts, stop: Option<Stop>)
    requires g.replies(0) == Bundle(ThreeItems()) && g.applications(0).Done? && g.sound(0) && !g.late(0) && g.late(1)
    requires g.Progressed(FourFiles(), k, Counts(0, 0, 0), end, stop)
    ensures stop == Some(Late) && k == 1
  {
    hide Acceptable;
    var chunks, start := Chunks(FourFiles()), Counts(0, 0, 0);
    FourFilesCut();
    ThreeItemsAccepted();
    assert g.ChunkLands(chunks[0], Begin(start));
    assert g.At(chunks, 1, start) == g.AfterChunk(chunks[0], Begin(start));
    assert g.At(chunks, 1, start).begun == 1;
  }

  /** The same, read off what the whole build promises. */
  lemma ReportsNothing(g: Generator, m: Milestone, written: seq<string>, stop: Option<Stop>, kept: set<string>,
                       assignments: map<string, seq<PlannedFile>>, reached: nat, k: nat, counts: seq<Counts>,
                       end: Counts)
    requires g.replies(0) == Bundle(ThreeItems()) && g.applications(0).Done? && g.sound(0) && !g.late(0) && g.late(1)
    requires m.id in assignments && Assigns(assignments, FourFiles(), [m]) && reached <= 1
        && (stop.None? <==> reached == 1)
    requires forall n :: n in [m][..reached] ==> n.id in assignments
    requires g.BuiltInTurn([m][..reached], assignments, counts, map[], (path: string) => false)
        && counts[0] == Counts(0, 0, 0)
    requires stop.Some? ==> g.Progressed(assignments[m.id], k, counts[0], end, stop)
    requires
      var before := PathSet(Dealt([m][..reached], assignments));
      var begun := if stop.Some? then PathSet(g.FirstBundles(assignments[m.id], k)) else {};
      && Members(written) == (if stop == Some(Late) then before else before + begun)
      && kept + before == before + begun
    ensures stop == Some(Late) && written == [] && kept == {"a", "b", "c"}
  {
    hide AssignedTo, Chunks, Acceptable;
    OnlyOwner(FourFiles(), m);
    assert m in [m];
    FourFilesCut();
    if stop.None? {
      assert [m][..1] == [m];
      StopsAfterThree(g, |Chunks(FourFiles())|, counts[1], None);
    } else {
      StopsAfterThree(g, k, end, stop);
      assert [m][..0] == [];
      assert Dealt([], assignments) == [];
      NoMembers(written);
    }
  }

  lemma NoMembers(xs: seq<string>)
    ensures Members(xs) == {} ==> xs == []
  {
    assert xs != [] ==> xs[0] in Members(xs);
  }

  /** Three files are written and kept, and none is reported. */
  method DeadlineHidesThree() returns (written: seq<string>, stop: Option<Stop>, ghost kept: set<string>)
    ensures stop == Some(Late) && written == [] && kept == {"a", "b", "c"}
  {
    hide Acceptable, Chunks, Clean, AssignedTo, Assigns, Dealt, Generator.BuiltInTurn, Generator.Progressed, Members,
        PathSet,
         Generator.FirstBundles, ThreeItems, FourFiles, Generator.TakenOver;
    var g := new Generator((n: nat) => Bundle(ThreeItems()), (n: nat) => Done, (n: nat) => true, (n: nat) => n == 1,
                           (content: string, path: string) => content);
    var m := Milestone("m1", 0);
    FourFilesCut();
    ghost var assignments, reached, k, counts;
    written, stop, assignments, reached, k, counts :=
        g.GenerateMilestoneFiles(FourFiles(), 4, [m], map[], (path: string) => false);
    kept := g.kept;
    assert m in [m];
    ReportsNothing(g, m, written, stop, kept, assignments, reached, k, counts, g.Now());
  }
}
