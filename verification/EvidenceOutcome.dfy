/**
  Reading a run's outcome off its records.  A failure counts only if nothing later made
  it good; each kind of failure has its own notion of "later" and of "made good".
 */
module EvidenceOutcome {
  import opened RunRecords
  import opened Basics

  /** One verdict on one subject: a verifier, a file, ... */
  datatype Observation = Observation(subject: string, good: bool)

  /** The subject of observation `i` failed there and was never seen to be good again. */
  predicate Stands(obs: seq<Observation>, i: nat)
    requires i < |obs|
  {
    !obs[i].good && forall j :: i < j < |obs| && obs[j].subject == obs[i].subject ==> !obs[j].good
  }

  ghost predicate Unrecovered(obs: seq<Observation>) {
    exists i :: 0 <= i < |obs| && Stands(obs, i)
  }

  /** The dictionary of latest verdicts that the code keeps. */
  function Latest(obs: seq<Observation>): map<string, bool> {
    if obs == [] then map[]
    else Latest(obs[..|obs| - 1])[obs[|obs| - 1].subject := obs[|obs| - 1].good]
  }

  lemma LatestStep(obs: seq<Observation>, o: Observation)
    ensures Latest(obs + [o]) == Latest(obs)[o.subject := o.good]
  {
    assert (obs + [o])[..|obs|] == obs;
  }

  predicate LastSeen(obs: seq<Observation>, i: nat)
    requires i < |obs|
  {
    forall j :: i < j < |obs| ==> obs[j].subject != obs[i].subject
  }

  /** The dictionary holds the last verdict on each subject, and nothing else. */
  lemma {:induction false} LatestIsLast(obs: seq<Observation>, s: string) returns (l: nat)
    ensures s in Latest(obs) <==> exists i :: 0 <= i < |obs| && obs[i].subject == s
    ensures s in Latest(obs) ==> l < |obs| && obs[l].subject == s && LastSeen(obs, l) && Latest(obs)[s] == obs[l].good
  {
    l := 0;
    if obs != [] {
      var k := |obs| - 1;
      if obs[k].subject == s {
        l := k;
      } else {
        l := LatestIsLast(obs[..k], s);
        if i :| 0 <= i < |obs| && obs[i].subject == s {
          assert obs[..k][i].subject == s;
        }
      }
    }
  }

  /** Asking the dictionary is asking the history. */
  lemma LatestTellsUnrecovered(obs: seq<Observation>)
    ensures Unrecovered(obs) <==> exists s :: s in Latest(obs) && !Latest(obs)[s]
  {
    hide Latest;
    if Unrecovered(obs) {
      var i :| 0 <= i < |obs| && Stands(obs, i);
      var l := LatestIsLast(obs, obs[i].subject);
      assert i <= l;
      assert !Latest(obs)[obs[i].subject];
    }
    if s :| s in Latest(obs) && !Latest(obs)[s] {
      var l := LatestIsLast(obs, s);
      assert Stands(obs, l);
    }
  }

  // ---- verification and patches -----------------------------------------------------

  function VerifierKey(e: Record): string
    requires e.Event?
  {
    if e.fields.verifierId != "" then e.fields.verifierId
    else if e.fields.command != "" then e.fields.command
    else "__general__"
  }

  function VerificationsOf(e: Record): seq<Observation> {
    if e.Event? && e.kind in {"verification_failed", "verification_passed"}
    then [Observation(VerifierKey(e), e.kind == "verification_passed")]
    else []
  }

  function PatchesOf(e: Record): seq<Observation> {
    if e.Event? && e.kind in {"patch_apply_failed", "patch_apply_succeeded"}
    then
      var files := if e.fields.files == [] then ["__unknown__"] else e.fields.files;
      seq(|files|, i requires 0 <= i < |files| => Observation(files[i], e.kind == "patch_apply_succeeded"))
    else []
  }

  function Verifications(events: seq<Record>): seq<Observation> {
    if events == [] then [] else Verifications(events[..|events| - 1]) + VerificationsOf(events[|events| - 1])
  }

  function Patches(events: seq<Record>): seq<Observation> {
    if events == [] then [] else Patches(events[..|events| - 1]) + PatchesOf(events[|events| - 1])
  }

  lemma EmptyLatest()
    ensures Latest([]) == map[] && Verifications([]) == [] && Patches([]) == []
  {
  }

  method AnyFailed(latest: map<string, bool>) returns (any: bool)
    ensures any <==> exists s :: s in latest && !latest[s]
  {
    any := exists s :: s in latest && !latest[s];
  }

  method HasUnrecoveredVerificationFailure(events: seq<Record>) returns (failed: bool)
    ensures failed <==> Unrecovered(Verifications(events))
    ensures failed <==> exists i :: 0 <= i < |events| && CheckStands(events, i)
  {
    hide Latest, VerifierKey, Unrecovered, CheckStands;
    ChecksExactly(events);
    var latest: map<string, bool> := map[];
    assert events[..0] == [];
    EmptyLatest();
    for i := 0 to |events|
      invariant latest == Latest(Verifications(events[..i]))
    {
      var e := events[i];
      assert events[..i + 1][..i] == events[..i];
      ghost var before := Verifications(events[..i]);
      if e.Event? && e.kind in {"verification_failed", "verification_passed"} {
        LatestStep(before, Observation(VerifierKey(e), e.kind == "verification_passed"));
        latest := latest[VerifierKey(e) := e.kind == "verification_passed"];
      } else {
        assert before + [] == before;
      }
    }
    assert events[..|events|] == events;
    LatestTellsUnrecovered(Verifications(events));
    failed := AnyFailed(latest);
  }

  /** One patch event: the verdict on each of its files. */
  method RecordPatch(latest: map<string, bool>, files: seq<string>, good: bool, ghost before: seq<Observation>)
    returns (latest': map<string, bool>)
    requires latest == Latest(before)
    ensures latest' == Latest(before + seq(|files|, i requires 0 <= i < |files| => Observation(files[i], good)))
  {
    hide Latest;
    latest' := latest;
    ghost var these := seq(|files|, i requires 0 <= i < |files| => Observation(files[i], good));
    assert before + these[..0] == before;
    for k := 0 to |files|
      invariant latest' == Latest(before + these[..k])
    {
      LatestStep(before + these[..k], these[k]);
      assert before + these[..k + 1] == before + these[..k] + [these[k]];
      latest' := latest'[files[k] := good];
    }
    assert these[..|files|] == these;
  }

  method HasUnrecoveredPatchFailure(events: seq<Record>) returns (failed: bool)
    ensures failed <==> Unrecovered(Patches(events))
    ensures failed <==> exists i, file :: 0 <= i < |events| && PatchStands(events, i, file)
  {
    hide Latest, Unrecovered, PatchStands;
    PatchesExactly(events);
    var latest: map<string, bool> := map[];
    assert events[..0] == [];
    EmptyLatest();
    for i := 0 to |events|
      invariant latest == Latest(Patches(events[..i]))
    {
      var e := events[i];
      assert events[..i + 1][..i] == events[..i];
      ghost var before := Patches(events[..i]);
      if e.Event? && e.kind in {"patch_apply_failed", "patch_apply_succeeded"} {
        var files := if e.fields.files == [] then ["__unknown__"] else e.fields.files;
        latest := RecordPatch(latest, files, e.kind == "patch_apply_succeeded", before);
      } else {
        assert before + [] == before;
      }
    }
    assert events[..|events|] == events;
    LatestTellsUnrecovered(Patches(events));
    failed := AnyFailed(latest);
  }

  // ---- the same in terms of events -------------------------------------------------------

  predicate Is(e: Record, kind: string) {
    e.Event? && e.kind == kind
  }

  /** Two verdicts concern one check: by verifier id if both have one, else by command, else any two do. */
  lemma SameCheckExactly(e: Record, t: Record)
    requires e.Event? && t.Event?
    ensures
      var same := VerifierKey(e) == VerifierKey(t);
      && (e.fields.verifierId != "" && t.fields.verifierId != "" ==>
            (same <==> e.fields.verifierId == t.fields.verifierId))
      && (e.fields.verifierId != "" && t.fields.verifierId == "" && t.fields.command != "" ==>
            (same <==> e.fields.verifierId == t.fields.command))
      && (e.fields.verifierId == "" == t.fields.verifierId && e.fields.command != "" && t.fields.command != "" ==>
            (same <==> e.fields.command == t.fields.command))
      && (e.fields.verifierId == "" == t.fields.verifierId && e.fields.command == "" == t.fields.command ==> same)
  {
  }

  /** A failed check that no later pass of the same check made good. */
  ghost predicate CheckStands(events: seq<Record>, i: nat)
    requires i < |events|
  {
    && Is(events[i], "verification_failed")
    && forall j :: i < j < |events| && Is(events[j], "verification_passed") ==>
                     VerifierKey(events[j]) != VerifierKey(events[i])
  }

  ghost predicate CheckFails(events: seq<Record>, s: string) {
    exists i :: 0 <= i < |events| && CheckStands(events, i) && VerifierKey(events[i]) == s
  }

  lemma CheckFailsNext(events: seq<Record>, e: Record, s: string)
    ensures CheckFails(events + [e], s) <==>
              || (Is(e, "verification_failed") && VerifierKey(e) == s)
              || (CheckFails(events, s) && !(Is(e, "verification_passed") && VerifierKey(e) == s))
  {
    hide VerifierKey;
    var all, k := events + [e], |events|;
    assert all[k] == e && forall i :: 0 <= i < k ==> all[i] == events[i];
    assert CheckStands(all, k) <==> Is(e, "verification_failed");
    forall i | 0 <= i < k
      ensures CheckStands(all, i) <==>
                CheckStands(events, i) && !(Is(e, "verification_passed") && VerifierKey(e) == VerifierKey(events[i]))
    {
    }
  }

  lemma {:induction false} LatestChecks(events: seq<Record>, s: string)
    ensures s in Latest(Verifications(events)) && !Latest(Verifications(events))[s] <==> CheckFails(events, s)
  {
    hide Latest, VerifierKey, CheckFails;
    EmptyLatest();
    if events == [] {
      NoFailures(s);
    } else {
      var k := |events| - 1;
      var init, e := events[..k], events[k];
      assert events == init + [e];
      LatestChecks(init, s);
      CheckFailsNext(init, e, s);
      var before := Verifications(init);
      if Is(e, "verification_failed") || Is(e, "verification_passed") {
        LatestStep(before, Observation(VerifierKey(e), e.kind == "verification_passed"));
      } else {
        assert before + [] == before;
      }
    }
  }

  lemma NoFailures(s: string)
    ensures !CheckFails([], s) && !PatchFails([], s)
  {
  }

  /** A verification failure stands exactly if some failed check was not made good. */
  lemma ChecksExactly(events: seq<Record>)
    ensures Unrecovered(Verifications(events)) <==> exists i :: 0 <= i < |events| && CheckStands(events, i)
  {
    hide Latest, Verifications, Unrecovered, VerifierKey;
    LatestTellsUnrecovered(Verifications(events));
    if s :| s in Latest(Verifications(events)) && !Latest(Verifications(events))[s] {
      LatestChecks(events, s);
    }
    if i :| 0 <= i < |events| && CheckStands(events, i) {
      var s := VerifierKey(events[i]);
      LatestChecks(events, s);
      assert CheckFails(events, s);
    }
  }

  /** The patch event concerns the file; one that lists no files concerns an unknown one. */
  predicate Touches(e: Record, file: string) {
    e.Event? && if e.fields.files == [] then file == "__unknown__" else file in e.fields.files
  }

  /** A failed patch of a file that no later patch of it made good. */
  ghost predicate PatchStands(events: seq<Record>, i: nat, file: string)
    requires i < |events|
  {
    && Is(events[i], "patch_apply_failed") && Touches(events[i], file)
    && forall j :: i < j < |events| && Is(events[j], "patch_apply_succeeded") ==> !Touches(events[j], file)
  }

  lemma {:induction false} LatestUniform(before: seq<Observation>, files: seq<string>, good: bool, s: string)
    ensures
      var latest := Latest(before + seq(|files|, i requires 0 <= i < |files| => Observation(files[i], good)));
      && (s in latest <==> s in files || s in Latest(before))
      && (s in latest ==> latest[s] == if s in files then good else Latest(before)[s])
  {
    hide Latest;
    var these := seq(|files|, i requires 0 <= i < |files| => Observation(files[i], good));
    if files == [] {
      assert before + these == before;
    } else {
      var k := |files| - 1;
      var init := seq(k, i requires 0 <= i < k => Observation(files[..k][i], good));
      LatestUniform(before, files[..k], good, s);
      assert before + these == (before + init) + [Observation(files[k], good)];
      LatestStep(before + init, Observation(files[k], good));
      assert files == files[..k] + [files[k]];
    }
  }

  ghost predicate PatchFails(events: seq<Record>, file: string) {
    exists i :: 0 <= i < |events| && PatchStands(events, i, file)
  }

  lemma PatchFailsNext(events: seq<Record>, e: Record, file: string)
    ensures PatchFails(events + [e], file) <==>
              || (Is(e, "patch_apply_failed") && Touches(e, file))
              || (PatchFails(events, file) && !(Is(e, "patch_apply_succeeded") && Touches(e, file)))
  {
    hide Touches;
    var all, k := events + [e], |events|;
    assert all[k] == e && forall i :: 0 <= i < k ==> all[i] == events[i];
    assert PatchStands(all, k, file) <==> Is(e, "patch_apply_failed") && Touches(e, file);
    forall i | 0 <= i < k
      ensures PatchStands(all, i, file) <==>
                PatchStands(events, i, file) && !(Is(e, "patch_apply_succeeded") && Touches(e, file))
    {
    }
  }

  lemma {:induction false} LatestPatches(events: seq<Record>, s: string)
    ensures s in Latest(Patches(events)) && !Latest(Patches(events))[s] <==> PatchFails(events, s)
  {
    hide Latest, PatchFails;
    EmptyLatest();
    if events == [] {
      NoFailures(s);
    } else {
      var k := |events| - 1;
      var init, e := events[..k], events[k];
      assert events == init + [e];
      LatestPatches(init, s);
      PatchFailsNext(init, e, s);
      var before := Patches(init);
      if Is(e, "patch_apply_failed") || Is(e, "patch_apply_succeeded") {
        var files := if e.fields.files == [] then ["__unknown__"] else e.fields.files;
        LatestUniform(before, files, e.kind == "patch_apply_succeeded", s);
      } else {
        assert before + [] == before;
      }
    }
  }

  /** A patch failure stands exactly if some file's failed patch was not made good. */
  lemma PatchesExactly(events: seq<Record>)
    ensures Unrecovered(Patches(events)) <==>
              exists i, file :: 0 <= i < |events| && PatchStands(events, i, file)
  {
    hide Latest, Patches, PatchStands, Unrecovered;
    LatestTellsUnrecovered(Patches(events));
    if s :| s in Latest(Patches(events)) && !Latest(Patches(events))[s] {
      LatestPatches(events, s);
    }
    if i, file :| 0 <= i < |events| && PatchStands(events, i, file) {
      LatestPatches(events, file);
      assert PatchFails(events, file);
    }
  }

  // ---- commands and denials -----------------------------------------------------------

  predicate Ran(e: Record) {
    e.Event? && e.kind == "command_finished"
  }

  /** The last command to finish did not succeed. */
  ghost predicate LastCommandFailed(events: seq<Record>) {
    exists i :: 0 <= i < |events| && Ran(events[i]) && events[i].fields.exitCode != 0
                && forall j :: i < j < |events| ==> !Ran(events[j])
  }

  method HasUnrecoveredCommandFailure(events: seq<Record>) returns (failed: bool)
    ensures failed <==> LastCommandFailed(events)
  {
    var latest: Option<int> := None;
    ghost var at := 0;
    for i := 0 to |events|
      invariant latest.None? ==> forall j :: 0 <= j < i ==> !Ran(events[j])
      invariant latest.Some? ==> 0 <= at < i && Ran(events[at]) && events[at].fields.exitCode == latest.value
      invariant latest.Some? ==> forall j :: at < j < i ==> !Ran(events[j])
    {
      if Ran(events[i]) {
        latest := Some(events[i].fields.exitCode);
        at := i;
      }
    }
    failed := latest.Some? && latest.value != 0;
  }

  predicate Denied(e: Record) {
    e.Event? && e.kind == "approval_denied"
  }

  predicate WorkDone(e: Record) {
    e.Event? && (e.kind in {"patch_apply_succeeded", "verification_passed", "mutation_finished"}
                 || (e.kind == "command_finished" && e.fields.exitCode == 0))
  }

  /** Something was refused and nothing succeeded afterwards. */
  ghost predicate DeniedAndStuck(events: seq<Record>) {
    exists i :: 0 <= i < |events| && Denied(events[i]) && forall j :: i < j < |events| ==> !WorkDone(events[j])
  }

  method HasUnrecoveredDenial(events: seq<Record>) returns (denied: bool)
    ensures denied <==> DeniedAndStuck(events)
  {
    var last := -1;
    for i := 0 to |events|
      invariant -1 <= last < i
      invariant last >= 0 ==> Denied(events[last])
      invariant forall j :: last < j < i ==> !Denied(events[j])
    {
      if Denied(events[i]) {
        last := i;
      }
    }
    if last < 0 {
      return false;
    }
    for i := last + 1 to |events|
      invariant forall j :: last < j < i ==> !WorkDone(events[j])
    {
      if WorkDone(events[i]) {
        assert forall d :: 0 <= d < |events| && Denied(events[d]) ==> d < i;
        return false;
      }
    }
    return true;
  }

  // ---- tools -------------------------------------------------------------------------------

  const FILE_TOOLS: set<string> := {"read_file", "edit_file", "append_file", "write_file"}
  const WRITE_TOOLS: set<string> := {"edit_file", "append_file", "write_file"}

  /** The arguments by call id; the last call of an id wins. */
  function Paths(tools: seq<Record>): map<string, string> {
    if tools == [] then map[]
    else
      var r := tools[|tools| - 1];
      if r.ToolCalled? then Paths(tools[..|tools| - 1])[r.id := r.path] else Paths(tools[..|tools| - 1])
  }

  function PathOf(r: Record, paths: map<string, string>): string {
    Slashes(if r.id in paths then paths[r.id] else "")
  }

  /** A later write to the same file that worked. */
  predicate Repairs(later: Record, path: string, paths: map<string, string>) {
    later.ToolFinished? && later.ok && later.tool in WRITE_TOOLS && path != "" && PathOf(later, paths) == path
  }

  predicate LastOfItsTool(tools: seq<Record>, i: nat)
    requires i < |tools|
  {
    tools[i].ToolFinished?
    && forall j :: i < j < |tools| && tools[j].ToolFinished? ==> tools[j].tool != tools[i].tool
  }

  /** The last use of some tool failed, and it was not a file tool whose file a later write put right. */
  predicate ToolFailedAt(tools: seq<Record>, i: nat)
    requires i < |tools|
  {
    && tools[i].ToolFinished? && LastOfItsTool(tools, i) && !tools[i].ok
    && (tools[i].tool in FILE_TOOLS ==>
          forall j :: i < j < |tools| ==> !Repairs(tools[j], PathOf(tools[i], Paths(tools)), Paths(tools)))
  }

  ghost predicate ToolFailureStands(tools: seq<Record>) {
    exists i :: 0 <= i < |tools| && ToolFailedAt(tools, i)
  }

  ghost predicate IsLatest(latest: map<string, int>, tools: seq<Record>) {
    && (forall t :: t in latest ==>
          0 <= latest[t] < |tools| && LastOfItsTool(tools, latest[t]) && tools[latest[t]].tool == t)
    && (forall i :: 0 <= i < |tools| && LastOfItsTool(tools, i) ==>
          tools[i].tool in latest && latest[tools[i].tool] == i)
  }

  /** The last result of each tool, by position. */
  method LatestResults(tools: seq<Record>) returns (latest: map<string, int>)
    ensures IsLatest(latest, tools)
  {
    latest := map[];
    for i := 0 to |tools|
      invariant forall t :: t in latest ==>
                  0 <= latest[t] < i && tools[latest[t]].ToolFinished? && tools[latest[t]].tool == t
      invariant forall j :: 0 <= j < i && tools[j].ToolFinished? ==>
                  tools[j].tool in latest && j <= latest[tools[j].tool]
    {
      if tools[i].ToolFinished? {
        latest := latest[tools[i].tool := i];
      }
    }
  }

  method RepairedLater(tools: seq<Record>, at: nat, path: string, paths: map<string, string>) returns (recovered: bool)
    requires at < |tools|
    ensures recovered <==> exists j :: at < j < |tools| && Repairs(tools[j], path, paths)
  {
    for j := at + 1 to |tools|
      invariant forall k :: at < k < j ==> !Repairs(tools[k], path, paths)
    {
      if Repairs(tools[j], path, paths) {
        return true;
      }
    }
    return false;
  }

  method HasUnrecoveredToolFailure(tools: seq<Record>) returns (failed: bool)
    ensures failed <==> ToolFailureStands(tools)
  {
    hide LastOfItsTool, Repairs, Paths, PathOf;
    var paths := Paths(tools);
    var latest := LatestResults(tools);
    var todo := latest.Keys;
    while todo != {}
      invariant todo <= latest.Keys
      invariant forall t :: t in latest.Keys - todo ==> !ToolFailedAt(tools, latest[t])
      decreases todo
    {
      var tool :| tool in todo;
      todo := todo - {tool};
      var at := latest[tool];
      LastIsResult(tools, at);
      if tools[at].ok {
        continue;
      }
      if tool !in FILE_TOOLS {
        assert ToolFailedAt(tools, at);
        return true;
      }
      var recovered := RepairedLater(tools, at, PathOf(tools[at], paths), paths);
      if !recovered {
        assert ToolFailedAt(tools, at);
        return true;
      }
    }
    return false;
  }

  lemma LastIsResult(tools: seq<Record>, i: nat)
    requires i < |tools| && LastOfItsTool(tools, i)
    ensures tools[i].ToolFinished?
  {
  }

  // ---- the outcome ------------------------------------------------------------------------------

  predicate Saw(events: seq<Record>, kind: string) {
    exists e :: e in events && e.Event? && e.kind == kind
  }

  const STOPPERS: set<string> :=
    {"patch_validation_failed", "mutation_required_but_missing", "contract_failed", "agent_stopped"}

  predicate Stopped(events: seq<Record>) {
    exists e :: e in events && e.Event? && e.kind in STOPPERS
  }

  predicate BadMutation(mutations: seq<Record>) {
    exists m :: m in mutations && !(m.Mutation? && m.status in {"applied", "rolled_back"})
  }

  predicate Mutated(f: RunFiles) {
    f.mutations != [] || Saw(f.events, "patch_apply_succeeded")
  }

  ghost predicate FailureStands(f: RunFiles) {
    || Unrecovered(Verifications(f.events))
    || LastCommandFailed(f.events)
    || Stopped(f.events)
    || BadMutation(f.mutations)
    || ToolFailureStands(f.tools)
    || Unrecovered(Patches(f.events))
  }

  /** What the code reports, without closing the run. */
  method Outcome(f: RunFiles) returns (outcome: string)
    ensures outcome in TERMINAL
    ensures f.status.Some? && f.status.value in TERMINAL ==> outcome == f.status.value
    ensures !(f.status.Some? && f.status.value in TERMINAL) ==> Reads(f, outcome)
  {
    if f.status.Some? && f.status.value in TERMINAL {
      return f.status.value;
    }
    if Saw(f.events, "run_cancelled") {
      return "cancelled";
    }
    if Saw(f.events, "run_timed_out") {
      return "timed_out";
    }
    if Saw(f.events, "run_needs_input") {
      return "needs_input";
    }
    var denial := HasUnrecoveredDenial(f.events);
    if denial {
      return "denied";
    }
    if Saw(f.events, "composite_failed") {
      return "failed";
    }
    if Saw(f.events, "composite_partial") {
      return "partial";
    }
    var verification := HasUnrecoveredVerificationFailure(f.events);
    var command := HasUnrecoveredCommandFailure(f.events);
    var tool := HasUnrecoveredToolFailure(f.tools);
    var patch := HasUnrecoveredPatchFailure(f.events);
    if verification || command || Stopped(f.events) || BadMutation(f.mutations) || tool || patch {
      return "failed";
    }
    if Mutated(f) && !(Saw(f.events, "verification_passed") && !Saw(f.events, "contract_unresolved")) {
      return "success_unverified";
    }
    return "success";
  }

  /** The run was not cut short, handed back or refused. */
  ghost predicate Unblocked(f: RunFiles) {
    && !Saw(f.events, "run_cancelled") && !Saw(f.events, "run_timed_out") && !Saw(f.events, "run_needs_input")
    && !DeniedAndStuck(f.events)
  }

  /** Nor did a composite request fail in part. */
  ghost predicate Uninterrupted(f: RunFiles) {
    Unblocked(f) && !Saw(f.events, "composite_failed") && !Saw(f.events, "composite_partial")
  }

  /** When each word may be used. */
  ghost predicate Reads(f: RunFiles, outcome: string) {
    var good := Uninterrupted(f) && !FailureStands(f);
    var checked := Saw(f.events, "verification_passed") && !Saw(f.events, "contract_unresolved");
    && (outcome == "success" <==> good && (Mutated(f) ==> checked))
    && (outcome == "success_unverified" <==> good && Mutated(f) && !checked)
    && (outcome == "failed" <==> Unblocked(f) && (Saw(f.events, "composite_failed")
                                                 || (!Saw(f.events, "composite_partial") && FailureStands(f))))
    && (outcome == "partial" <==>
          Unblocked(f) && !Saw(f.events, "composite_failed") && Saw(f.events, "composite_partial"))
    && (outcome == "cancelled" <==> Saw(f.events, "run_cancelled"))
    && (outcome == "timed_out" <==> !Saw(f.events, "run_cancelled") && Saw(f.events, "run_timed_out"))
    && (outcome == "needs_input" <==>
          !Saw(f.events, "run_cancelled") && !Saw(f.events, "run_timed_out") && Saw(f.events, "run_needs_input"))
    && (outcome == "denied" <==>
          && !Saw(f.events, "run_cancelled") && !Saw(f.events, "run_timed_out") && !Saw(f.events, "run_needs_input")
          && DeniedAndStuck(f.events))
  }

  /** A failed check is forgiven by a later pass of the same verifier, and by nothing else of its kind. */
  lemma PassRecovers(obs: seq<Observation>, subject: string)
    ensures Unrecovered(obs + [Observation(subject, true)])
       <==> exists i :: 0 <= i < |obs| && obs[i].subject != subject && Stands(obs, i)
  {
    var obs' := obs + [Observation(subject, true)];
    forall i | 0 <= i < |obs|
      ensures Stands(obs', i) <==> obs[i].subject != subject && Stands(obs, i)
    {
      assert obs'[|obs|] == Observation(subject, true);
      assert forall j :: i <= j < |obs| ==> obs'[j] == obs[j];
    }
    assert !Stands(obs', |obs|);
  }
}
