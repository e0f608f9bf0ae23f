/**
  What it means that the checker has nothing to say, in terms of the files alone.
 */
module Acceptance {
  import opened Basics
  import opened RunRecords
  import opened LedgerSpec
  import opened RunValidator
  import opened LedgerTheorems

  /** What the checker reads of a stream: for contexts the numbered files, or else the latest preview. */
  function Seen(f: RunFiles, s: Stream): seq<Record> {
    if s == Contexts && f.contexts == [] then (if f.preview.Some? then [f.preview.value] else []) else Get(f, s)
  }

  /** Where a stream begins in the checker's list of all records. */
  function StartOf(f: RunFiles, s: Stream): nat {
    match s
    case Events => 0
    case Decisions => |f.events|
    case Tools => |f.events| + |f.decisions|
    case Models => |f.events| + |f.decisions| + |f.tools|
    case Mutations => |f.events| + |f.decisions| + |f.tools| + |f.models|
    case Contexts => |f.events| + |f.decisions| + |f.tools| + |f.models| + |f.mutations|
  }

  lemma RecordAt(f: RunFiles, s: Stream, i: nat)
    requires i < |Seen(f, s)|
    ensures StartOf(f, s) + i < |AllRecords(f)| && AllRecords(f)[StartOf(f, s) + i] == Seen(f, s)[i]
  {
  }

  lemma RecordFrom(f: RunFiles, k: nat) returns (s: Stream, i: nat)
    requires k < |AllRecords(f)|
    ensures i < |Seen(f, s)| && k == StartOf(f, s) + i
  {
    s := if k < StartOf(f, Decisions) then Events else if k < StartOf(f, Tools) then Decisions
    else if k < StartOf(f, Models) then Tools else if k < StartOf(f, Mutations) then Models
    else if k < StartOf(f, Contexts) then Mutations else Contexts;
    i := k - StartOf(f, s);
  }

  /** No record the checker reads has number zero, and no two of them share one. */
  ghost predicate SequencesRight(f: RunFiles) {
    && (forall s, i :: 0 <= i < |Seen(f, s)| ==> Seen(f, s)[i].sequence > 0)
    && (forall s, i, s', j ::
          0 <= i < |Seen(f, s)| && 0 <= j < |Seen(f, s')| && Seen(f, s)[i].sequence == Seen(f, s')[j].sequence
          ==> s == s' && i == j)
  }

  lemma SequencesExactly(f: RunFiles)
    ensures !HasFault(f, NonPositiveSequence) && !HasFault(f, RepeatedSequence) <==> SequencesRight(f)
  {
    hide AllRecords, Seen, StartOf;
    if SequencesRight(f) {
      forall k | 0 <= k < |AllRecords(f)|
        ensures AllRecords(f)[k].sequence > 0
      {
        var s, i := RecordFrom(f, k);
        RecordAt(f, s, i);
      }
      forall k, m | 0 <= k < m < |AllRecords(f)|
        ensures AllRecords(f)[k].sequence != AllRecords(f)[m].sequence
      {
        var s, i := RecordFrom(f, k);
        var s', j := RecordFrom(f, m);
        RecordAt(f, s, i);
        RecordAt(f, s', j);
      }
    }
    if !HasFault(f, NonPositiveSequence) && !HasFault(f, RepeatedSequence) {
      forall s, i | 0 <= i < |Seen(f, s)|
        ensures Seen(f, s)[i].sequence > 0
      {
        RecordAt(f, s, i);
      }
      forall s, i, s', j
        | 0 <= i < |Seen(f, s)| && 0 <= j < |Seen(f, s')| && Seen(f, s)[i].sequence == Seen(f, s')[j].sequence
        ensures s == s' && i == j
      {
        RecordAt(f, s, i);
        RecordAt(f, s', j);
        StartsApart(f, s, i, s', j);
      }
    }
  }

  lemma StartsApart(f: RunFiles, s: Stream, i: nat, s': Stream, j: nat)
    requires i < |Seen(f, s)| && j < |Seen(f, s')| && StartOf(f, s) + i == StartOf(f, s') + j
    ensures s == s' && i == j
  {
  }

  ghost predicate Called(f: RunFiles, id: string) {
    exists t :: t in f.tools && t.ToolCalled? && t.id == id
  }

  ghost predicate Answered(f: RunFiles, id: string) {
    exists t :: t in f.tools && t.ToolFinished? && t.id == id
  }

  ghost predicate Started(f: RunFiles, id: string) {
    exists t :: t in f.models && t.ModelStarted? && t.id == id
  }

  ghost predicate Closed(f: RunFiles, id: string) {
    exists t :: t in f.models && t.ModelClosed? && t.id == id
  }

  /** Every call has its end, and nothing names a call that was never made. */
  ghost predicate CallsRight(f: RunFiles) {
    && (forall id :: Called(f, id) <==> Answered(f, id))
    && (forall id :: Started(f, id) ==> Closed(f, id))
    && (forall r :: r in Seen(f, Contexts) && r.Context? && r.modelCall != "" ==> Started(f, r.modelCall))
  }

  predicate OfCall(e: Fault) {
    e.UnfinishedTool? || e.UncalledTool? || e.UnclosedModel? || e.UnknownModel?
  }

  ghost predicate CallsFaulty(f: RunFiles) {
    exists e: Fault :: HasFault(f, e) && OfCall(e)
  }

  lemma CallsExactly(f: RunFiles)
    ensures !CallsFaulty(f) <==> CallsRight(f)
  {
    hide AllRecords, Called, Answered, Started, Closed;
    assert Seen(f, Contexts) == ContextGroup(f);
    IdsAre(f);
    if CallsRight(f) {
      forall e: Fault | OfCall(e)
        ensures !HasFault(f, e)
      {
      }
    }
    if !CallsFaulty(f) {
      forall id
        ensures Called(f, id) <==> Answered(f, id)
        ensures Started(f, id) ==> Closed(f, id)
      {
        assert !HasFault(f, UnfinishedTool(id)) && !HasFault(f, UncalledTool(id)) && !HasFault(f, UnclosedModel(id));
      }
      forall r | r in ContextGroup(f) && r.Context? && r.modelCall != ""
        ensures Started(f, r.modelCall)
      {
        assert !HasFault(f, UnknownModel(r.id, r.modelCall));
      }
    }
  }

  lemma IdsAre(f: RunFiles)
    ensures forall id :: Called(f, id) <==> id in CalledIds(f.tools)
    ensures forall id :: Answered(f, id) <==> id in FinishedIds(f.tools)
    ensures forall id :: Started(f, id) <==> id in StartedIds(f.models)
    ensures forall id :: Closed(f, id) <==> id in ClosedIds(f.models)
  {
  }

  /** The checker has nothing to say exactly about files like these. */
  lemma AcceptedExactly(f: RunFiles)
    ensures Accepted(f) <==>
              && f.status.Some? && (f.status.value != "running" ==> f.summary.Some? && f.finalOutput.Some?)
              && SequencesRight(f) && CallsRight(f)
  {
    hide SequencesRight, CallsRight, AllRecords;
    SequencesExactly(f);
    CallsExactly(f);
    assert Accepted(f) ==> !HasFault(f, MissingManifest) && !HasFault(f, MissingSummary)
                           && !HasFault(f, MissingFinalOutput)
                           && !HasFault(f, NonPositiveSequence) && !HasFault(f, RepeatedSequence);
    AcceptedParts(f);
  }

  lemma AcceptedParts(f: RunFiles)
    ensures Accepted(f) <==>
              && !HasFault(f, MissingManifest) && !HasFault(f, MissingSummary) && !HasFault(f, MissingFinalOutput)
              && !HasFault(f, NonPositiveSequence) && !HasFault(f, RepeatedSequence) && !CallsFaulty(f)
  {
    hide HasFault;
    assert forall e: Fault :: OfCall(e) || e == MissingManifest || e == MissingSummary || e == MissingFinalOutput
                              || e == NonPositiveSequence || e == RepeatedSequence;
  }
}
