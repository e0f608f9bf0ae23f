/**
  Whether the code index may be trusted: a stored record of generations and the manifest
  it was built from, checked against the workspace as it is now.
 */
module IndexFreshness {
  import opened Basics

  /** What the workspace looks like to the indexer. */
  datatype Snapshot = Snapshot(manifestHash: string, policyVersion: int)

  /** The stored record; a missing field reads as false, 0 or nothing. */
  datatype Record = Record(
    indexed: bool,
    forcedStale: bool,
    workspaceGeneration: nat,
    indexedGeneration: nat,
    built: Option<Snapshot>)

  const NoRecord := Record(false, false, 0, 0, None)

  datatype IndexStatus = IndexStatus(exists_: bool, stale: bool)

  function Marked(r: Record): Record {
    r.(workspaceGeneration := if r.forcedStale then r.workspaceGeneration else r.workspaceGeneration + 1,
       forcedStale := true)
  }

  function Indexed(r: Record, now: Snapshot): Record {
    Record(true, false, r.workspaceGeneration, r.workspaceGeneration, Some(now))
  }

  function StatusOf(r: Record, now: Snapshot): IndexStatus {
    if !r.indexed then IndexStatus(false, true)
    else if r.forcedStale then IndexStatus(true, true)
    else IndexStatus(true, r.built != Some(now) || r.workspaceGeneration != r.indexedGeneration)
  }

  predicate Fresh(s: IndexStatus) {
    s.exists_ && !s.stale
  }

  // ---- whole histories ----------------------------------------------------------------------

  datatype Event = Mutation | IndexRun(ok: bool, now: Snapshot)

  function Apply(r: Record, e: Event): Record {
    match e
    case Mutation => Marked(r)
    case IndexRun(ok, now) => if ok then Indexed(r, now) else r
  }

  function After(events: seq<Event>): Record {
    if events == [] then NoRecord else Apply(After(events[..|events| - 1]), events[|events| - 1])
  }

  /** The workspace as the last successful index run saw it. */
  function LastIndexed(events: seq<Event>): Option<Snapshot> {
    if events == [] then None
    else
      var e := events[|events| - 1];
      if e.IndexRun? && e.ok then Some(e.now) else LastIndexed(events[..|events| - 1])
  }

  /** A mutation was marked and no index run has succeeded since. */
  predicate Dirty(events: seq<Event>) {
    events != []
    && var e := events[|events| - 1];
       e.Mutation? || (!e.ok && Dirty(events[..|events| - 1]))
  }

  /** Bursts of mutations: runs of marks with no successful index run between them. */
  function Bursts(events: seq<Event>): nat {
    if events == [] then 0
    else
      var init := events[..|events| - 1];
      Bursts(init) + if events[|events| - 1].Mutation? && !Dirty(init) then 1 else 0
  }

  lemma {:induction false} RecordTellsHistory(events: seq<Event>)
    ensures
      var r := After(events);
      && r.forcedStale == Dirty(events)
      && r.workspaceGeneration == Bursts(events)
      && r.workspaceGeneration == r.indexedGeneration + (if Dirty(events) then 1 else 0)
      && r.built == LastIndexed(events)
      && r.indexed == LastIndexed(events).Some?
  {
    if events != [] {
      RecordTellsHistory(events[..|events| - 1]);
    }
  }

  /**
    The index is reported fresh exactly when an index run has succeeded, no mutation has been
    marked since, and the workspace still looks as it did to that run.
   */
  lemma FreshExactly(events: seq<Event>, now: Snapshot)
    ensures Fresh(StatusOf(After(events), now)) <==> LastIndexed(events) == Some(now) && !Dirty(events)
  {
    RecordTellsHistory(events);
  }

  /** Event `i` is a successful run over this workspace, and after it only failed runs. */
  predicate LastToCount(events: seq<Event>, i: nat, now: Snapshot)
    requires i < |events|
  {
    events[i] == IndexRun(true, now) && forall j :: i < j < |events| ==> events[j].IndexRun? && !events[j].ok
  }

  /** The same event by event: a successful run saw this workspace, and nothing but failed runs came after it. */
  lemma {:induction false} FreshInEvents(events: seq<Event>, now: Snapshot)
    ensures Fresh(StatusOf(After(events), now)) <==> exists i :: 0 <= i < |events| && LastToCount(events, i, now)
  {
    FreshExactly(events, now);
    if events != [] {
      var k := |events| - 1;
      var init, last := events[..k], events[k];
      FreshInEvents(init, now);
      FreshExactly(init, now);
      assert forall i :: 0 <= i < k ==> init[i] == events[i];
      assert forall i :: 0 <= i < k ==>
          (LastToCount(events, i, now) <==> LastToCount(init, i, now) && last.IndexRun? && !last.ok);
      assert LastToCount(events, k, now) <==> last == IndexRun(true, now);
    }
  }

  lemma {:induction false} DirtyStays(events: seq<Event>, more: seq<Event>)
    requires forall e :: e in more ==> e.Mutation? || !e.ok
    ensures Dirty(events + more) <==> Dirty(events) || exists e :: e in more && e.Mutation?
    ensures Bursts(events + more)
         == Bursts(events) + if !Dirty(events) && exists e :: e in more && e.Mutation? then 1 else 0
  {
    if more == [] {
      assert events + more == events;
    } else {
      var init, last := more[..|more| - 1], more[|more| - 1];
      assert more == init + [last];
      DirtyStays(events, init);
      assert (events + more)[..|events + more| - 1] == events + init;
    }
  }

  /** However many marks a burst has, failed index runs among them, the generation rises by exactly one. */
  lemma BurstRaisesOnce(events: seq<Event>, burst: seq<Event>)
    requires !Dirty(events) && (exists e :: e in burst && e.Mutation?)
    requires forall e :: e in burst ==> e.Mutation? || !e.ok
    ensures After(events + burst).workspaceGeneration == After(events).workspaceGeneration + 1
  {
    RecordTellsHistory(events);
    RecordTellsHistory(events + burst);
    DirtyStays(events, burst);
  }

  // ---- the service ----------------------------------------------------------------------------

  /** An index run succeeded on the workspace as it is now, and nothing was marked since. */
  predicate Current(events: seq<Event>, now: Snapshot) {
    LastIndexed(events) == Some(now) && !Dirty(events)
  }

  lemma Grows(events: seq<Event>, e: Event)
    ensures After(events + [e]) == Apply(After(events), e)
    ensures LastIndexed(events + [e]) == if e.IndexRun? && e.ok then Some(e.now) else LastIndexed(events)
    ensures Dirty(events + [e]) <==> e.Mutation? || (!e.ok && Dirty(events))
  {
    assert (events + [e])[..|events|] == events;
  }

  /**
    Bookkeeping over one stored record; the indexer's success and the workspace are inputs.
    The history is what happened to the record, whichever process it was.
   */
  class AbstractService {
    var last: Record
    ghost var history: seq<Event>

    ghost predicate Valid()
      reads this
    {
      last == After(history)
    }

    /** A service on the record that some history left; nothing stored is no history. */
    constructor (last: Record, ghost history: seq<Event>)
      requires last == After(history)
      ensures Valid() && this.history == history
    {
      this.last := last;
      this.history := history;
    }

    method ReadStatus(now: Snapshot) returns (s: IndexStatus)
      requires Valid()
      ensures s.exists_ <==> LastIndexed(history).Some?
      ensures s.stale <==> !Current(history, now)
    {
      RecordTellsHistory(history);
      if !last.indexed {
        return IndexStatus(false, true);
      }
      if last.forcedStale {
        return IndexStatus(true, true);
      }
      var stale := last.built != Some(now) || last.workspaceGeneration != last.indexedGeneration;
      return IndexStatus(true, stale);
    }

    method MarkStale()
      requires Valid()
      modifies this
      ensures Valid() && history == old(history) + [Mutation]
      ensures last.workspaceGeneration == Bursts(history) == Bursts(old(history)) + if Dirty(old(history)) then 0 else 1
    {
      Grows(history, Mutation);
      RecordTellsHistory(history);
      RecordTellsHistory(history + [Mutation]);
      if !last.forcedStale {
        last := last.(workspaceGeneration := last.workspaceGeneration + 1);
      }
      last := last.(forcedStale := true);
      history := history + [Mutation];
    }

    method MarkIndexed(now: Snapshot)
      requires Valid()
      modifies this
      ensures Valid() && history == old(history) + [IndexRun(true, now)] && Current(history, now)
    {
      Grows(history, IndexRun(true, now));
      var generation := last.workspaceGeneration;
      last := Record(true, false, generation, generation, Some(now));
      history := history + [IndexRun(true, now)];
    }

    /** Building and refreshing keep the same books; only the indexer's command differs. */
    method Index(ok: bool, now: Snapshot)
      requires Valid()
      modifies this
      ensures Valid() && history == old(history) + [IndexRun(ok, now)]
      ensures Current(history, now) <==> ok || Current(old(history), now)
    {
      Grows(history, IndexRun(ok, now));
      if ok {
        MarkIndexed(now);
      } else {
        history := history + [IndexRun(ok, now)];
      }
    }

    /** The gate before a workflow: builds or refreshes only when there is need to. */
    method EnsureReady(healthy: bool, autoBuild: bool, ok: bool, now: Snapshot) returns (indexerCalled: bool)
      requires Valid()
      modifies this
      ensures Valid() && history == old(history) + if indexerCalled then [IndexRun(ok, now)] else []
      ensures indexerCalled <==> healthy && autoBuild && !Current(old(history), now)
      ensures Current(history, now) <==> Current(old(history), now) || (indexerCalled && ok)
    {
      assert history + [] == history;
      if !healthy || !autoBuild {
        return false;
      }
      var s := ReadStatus(now);
      if !s.exists_ {
        Index(ok, now);
        return true;
      } else if s.stale {
        Index(ok, now);
        return true;
      }
      return false;
    }
  }
}
