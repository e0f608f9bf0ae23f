/**
  What forgetting messages in memory does to the boundary: it is counted in list positions,
  and saved as if the list were the transcript.
 */
module StaleDrops {
  import opened Basics
  import opened ConversationModel
  import opened ChatWindowRuns

  // ---- counting what is gone -------------------------------------------------------------------

  /** How many of a stretch of records are gone. */
  function Gone(lo: nat, hi: nat, gone: set<nat>): nat
    decreases hi
  {
    if hi <= lo then 0 else Gone(lo, hi - 1, gone) + if hi - 1 in gone then 1 else 0
  }

  lemma {:induction false} GoneSplit(lo: nat, mid: nat, hi: nat, gone: set<nat>)
    requires lo <= mid <= hi
    ensures Gone(lo, hi, gone) == Gone(lo, mid, gone) + Gone(mid, hi, gone)
    decreases hi
  {
    if mid < hi {
      GoneSplit(lo, mid, hi - 1, gone);
    }
  }

  lemma {:induction false} GoneExactly(lo: nat, hi: nat, gone: set<nat>)
    ensures Gone(lo, hi, gone) <= Max(0, hi - lo)
    ensures Gone(lo, hi, gone) > 0 <==> exists r :: r in gone && lo <= r < hi
    decreases hi
  {
    if lo < hi {
      GoneExactly(lo, hi - 1, gone);
    }
  }

  /** How many records are left of a loaded stretch. */
  function Left(lo: nat, hi: nat, gone: set<nat>): int {
    Max(0, hi - lo) - Gone(lo, hi, gone)
  }

  lemma {:induction false} RangeWithout(lo: nat, hi: nat, gone: set<nat>)
    requires lo <= hi
    ensures |Without(Range(lo, hi), gone)| == Left(lo, hi, gone)
    decreases hi
  {
    GoneExactly(lo, hi, gone);
    if lo < hi {
      assert Range(lo, hi)[..hi - lo - 1] == Range(lo, hi - 1);
      RangeWithout(lo, hi - 1, gone);
    } else {
      assert Range(lo, hi) == [];
    }
  }

  /** What is left of a loaded stretch, split at some record. */
  lemma {:induction false} WithoutSplit(lo: nat, mid: nat, hi: nat, gone: set<nat>)
    requires lo <= mid <= hi
    ensures Without(Range(lo, hi), gone) == Without(Range(lo, mid), gone) + Without(Range(mid, hi), gone)
    decreases hi
  {
    if mid < hi {
      assert Range(lo, hi)[..hi - lo - 1] == Range(lo, hi - 1);
      assert Range(mid, hi)[..hi - mid - 1] == Range(mid, hi - 1);
      WithoutSplit(lo, mid, hi - 1, gone);
    } else {
      assert Range(mid, hi) == [];
    }
  }

  /** Records below `d` come first: a position shows one exactly if it is among as many as are left of them. */
  lemma PositionBelow(lo: nat, d: nat, hi: nat, gone: set<nat>, k: nat)
    requires lo <= d <= hi && k < |Without(Range(lo, hi), gone)|
    ensures Without(Range(lo, hi), gone)[k] < d <==> k < Left(lo, d, gone)
  {
    WithoutSplit(lo, d, hi, gone);
    RangeWithout(lo, d, gone);
    var low, high := Without(Range(lo, d), gone), Without(Range(d, hi), gone);
    WithoutMembers(Range(lo, d), gone);
    WithoutMembers(Range(d, hi), gone);
    if k < |low| {
      assert low[k] in low;
    } else {
      assert high[k - |low|] in high;
    }
  }

  // ---- one process ---------------------------------------------------------------------------------

  /** A loaded process that has forgotten `gone`, and whatever was said since. */
  ghost predicate Forgot(c: Conversation, gone: set<nat>) {
    Sound(c) && c.window == Without(Range(c.offset, c.records), gone)
  }

  /** Dropping makes one ... */
  lemma DroppingForgets(c: Conversation, gone: set<nat>)
    requires Sound(c) && c.window == Range(c.offset, c.records)
    ensures Forgot(Drop(c, gone), gone)
  {
    StepSound(c, Dropped(gone));
  }

  /** ... and saying more keeps it, for what was said later is not gone. */
  lemma SayingForgets(c: Conversation, gone: set<nat>)
    requires Forgot(c, gone) && c.records !in gone
    ensures Forgot(Say(c), gone)
  {
    StepSound(c, Said);
    assert Range(c.offset, c.records + 1)[..c.records - c.offset] == Range(c.offset, c.records);
  }

  /** Up to where a fold reached, only what was left had been counted. */
  lemma StartCountsLeft(c: Conversation, gone: set<nat>, start: nat, d: nat)
    requires Forgot(c, gone) && 2 <= start <= |c.window| + 1 && d == c.window[start - 2] + 1
    ensures c.offset <= d <= c.records
    ensures start - 1 == Left(c.offset, d, gone)
  {
    assert c.window[start - 2] in c.window;
    PositionBelow(c.offset, d, c.records, gone, start - 2);
    if start - 1 < |c.window| {
      assert c.window[start - 2] < c.window[start - 1];
      PositionBelow(c.offset, d, c.records, gone, start - 1);
    } else {
      RangeWithout(c.offset, c.records, gone);
      GoneSplit(c.offset, d, c.records, gone);
      GoneExactly(d, c.records, gone);
    }
  }

  /** The fold saves a watermark too low by everything gone below its end: right exactly when nothing was. */
  lemma FoldLags(c: Conversation, gone: set<nat>, start: nat, summary: string)
    requires Forgot(c, gone) && c.upto < start <= |c.window| + 1
    ensures
      var c' := Prompt(c, start, summary);
      var d := Done(c'.folded);
      && c.offset <= d <= c.records && d == c.window[start - 2] + 1
      && c'.saved == d - Gone(c.offset, d, gone)
      && (c'.saved == d <==> !exists r :: r in gone && c.offset <= r < d)
      && c'.summary == summary && c'.records == c.records && c'.floor == c.floor
  {
    var d := c.window[start - 2] + 1;
    StartCountsLeft(c, gone, start, d);
    GoneExactly(c.offset, d, gone);
    var pending := Pending(c, start);
    assert pending[|pending| - 1] == c.window[start - 2];
    assert (c.folded + pending)[|c.folded + pending| - 1] == c.window[start - 2];
  }

  // ---- and the next ------------------------------------------------------------------------------

  /** What the process holds above its boundary, and below it. */
  function StillToFold(c: Conversation): seq<nat>
    requires 1 <= c.upto <= |c.window| + 1
  {
    c.window[c.upto - 1..]
  }

  function SteppedOver(c: Conversation): seq<nat>
    requires 1 <= c.upto <= |c.window| + 1
  {
    c.window[..c.upto - 1]
  }

  /** The stretch left below `d` of what a process has loaded. */
  function LeftBelow(c: Conversation, d: nat, gone: set<nat>): int {
    if d <= c.offset then 0 else Left(c.offset, d, gone)
  }

  lemma TailAgainst(c: Conversation, gone: set<nat>, d: nat)
    requires Forgot(c, gone) && d <= c.records
    ensures (exists r :: r in StillToFold(c) && r < d) <==> c.upto - 1 < LeftBelow(c, d, gone)
    ensures (exists r :: r in SteppedOver(c) && d <= r) <==> LeftBelow(c, d, gone) < c.upto - 1
    ensures LeftBelow(c, d, gone) <= |c.window|
  {
    hide Left, Gone, Without, Increasing;
    var k := c.upto - 1;
    var low := LeftBelow(c, d, gone);
    forall i | 0 <= i < |c.window|
      ensures c.window[i] < d <==> i < low
    {
      assert c.window[i] in c.window;
      if c.offset < d {
        PositionBelow(c.offset, d, c.records, gone, i);
      }
    }
    LeftOfWindow(c, gone, d);
    SliceMembers(c.window, k);
    if k < low {
      assert c.window[k] in StillToFold(c);
    }
    if low < k {
      assert c.window[k - 1] in SteppedOver(c);
    }
    if r :| r in StillToFold(c) && r < d {
      var i :| k <= i < |c.window| && c.window[i] == r;
    }
    if r :| r in SteppedOver(c) && d <= r {
      var i :| 0 <= i < k && c.window[i] == r;
    }
  }

  lemma SliceMembers(xs: seq<nat>, k: nat)
    requires k <= |xs|
    ensures forall r :: r in xs[k..] <==> exists i :: k <= i < |xs| && xs[i] == r
    ensures forall r :: r in xs[..k] <==> exists i :: 0 <= i < k && xs[i] == r
    ensures forall i :: k <= i < |xs| ==> xs[i] in xs[k..]
    ensures forall i :: 0 <= i < k ==> xs[i] in xs[..k]
  {
    forall i | k <= i < |xs|
      ensures xs[i] in xs[k..]
    {
      assert xs[k..][i - k] == xs[i];
    }
  }

  lemma LeftOfWindow(c: Conversation, gone: set<nat>, d: nat)
    requires Forgot(c, gone) && d <= c.records
    ensures 0 <= LeftBelow(c, d, gone) <= |c.window|
    ensures c.offset <= d ==> |c.window| - LeftBelow(c, d, gone) == Left(d, c.records, gone)
  {
    RangeWithout(c.offset, c.records, gone);
    GoneExactly(c.offset, c.records, gone);
    if c.offset <= d {
      GoneSplit(c.offset, d, c.records, gone);
      GoneExactly(c.offset, d, gone);
      GoneExactly(d, c.records, gone);
    }
  }

  /** Where a record that is left stands: behind all that are left before it. */
  lemma Standing(c: Conversation, gone: set<nat>, k: nat)
    requires Forgot(c, gone) && k < |c.window|
    ensures c.offset <= c.window[k] < c.records && LeftBelow(c, c.window[k], gone) == k
  {
    var r := c.window[k];
    assert r in c.window;
    PositionBelow(c.offset, r, c.records, gone, k);
    LeftOfWindow(c, gone, r);
    var low := LeftBelow(c, r, gone);
    if low < k {
      assert c.window[low] < c.window[k];
      PositionBelow(c.offset, r, c.records, gone, low);
    }
  }

  /**
    What the next process may fold, record by record: what it has loaded, has not forgotten,
    and has at least as many messages before as the saved watermark counts.
   */
  lemma NextFolds(c: Conversation, horizon: nat, gone: set<nat>, r: nat)
    requires Sound(c) && !Blank(c.summary)
    ensures
      var next := Drop(Resume(c, horizon), gone);
      && 1 <= next.upto <= |next.window| + 1
      && (r in StillToFold(next) <==>
            next.offset <= r < c.records && r !in gone && c.saved - next.offset <= LeftBelow(next, r, gone))
  {
    hide Resume, LeftBelow, Increasing;
    var next := Drop(Resume(c, horizon), gone);
    LoadedUpto(c, horizon);
    StepSound(c, Resumed(horizon));
    DroppingForgets(Resume(c, horizon), gone);
    DroppedLoad(c, horizon, gone);
    WithoutMembers(Range(next.offset, c.records), gone);
    if r in next.window {
      var k :| 0 <= k < |next.window| && next.window[k] == r;
      Standing(next, gone, k);
      AmongTail(next, gone, k);
    } else {
      TailLoaded(next, r);
    }
  }

  lemma LoadedUpto(c: Conversation, horizon: nat)
    requires Sound(c) && !Blank(c.summary)
    ensures
      var c' := Resume(c, horizon);
      && c'.window == Range(c'.offset, c.records) && c'.records == c.records && c'.offset <= c.records
      && c'.upto - 1 == Min(Max(0, c.saved - c'.offset), |c'.window|)
  {
  }

  lemma AmongTail(c: Conversation, gone: set<nat>, k: nat)
    requires Forgot(c, gone) && k < |c.window|
    ensures c.window[k] in StillToFold(c) <==> c.upto - 1 <= k
  {
    if c.upto - 1 <= k {
      assert StillToFold(c)[k - (c.upto - 1)] == c.window[k];
    }
  }

  lemma TailLoaded(c: Conversation, r: nat)
    requires 1 <= c.upto <= |c.window| + 1
    ensures r in StillToFold(c) ==> r in c.window
  {
  }

  /**
    A process folds up to record `d` with some messages forgotten, so the watermark it saves
    is `d` less the number of those; the next loads what its horizon allows and forgets
    messages of its own.  A record is folded again exactly if the next process still has it,
    with at least as many messages before it as that watermark counts.  What is before `d`
    is reached at all exactly if the next process forgets fewer messages before `d` and has
    one of them left; and a message never folded is stepped over exactly if it forgets more
    and has one behind `d`.
   */
  lemma NextProcess(c: Conversation, gone: set<nat>, start: nat, summary: string, horizon: nat, gone': set<nat>)
    requires Ahead(c) && Forgot(c, gone) && c.upto < start <= |c.window| + 1 && !Blank(summary)
    ensures
      var folded := Prompt(c, start, summary);
      var d := Done(folded.folded);
      var next := Drop(Resume(folded, horizon), gone');
      var before, again := Gone(c.offset, d, gone), Gone(next.offset, d, gone');
      && 1 <= next.upto <= |next.window| + 1
      && ((exists r :: r in StillToFold(next) && r in folded.folded) <==>
            exists r :: r in folded.folded && next.offset <= r && r !in gone'
                        && d - before - next.offset <= LeftBelow(next, r, gone'))
      && ((exists r :: r in StillToFold(next) && r < d) <==> again < before && LeftBelow(next, d, gone') > 0)
      && ((exists r :: r in SteppedOver(next) && r !in folded.folded && d <= r) <==>
            before < again && Left(d, c.records, gone') > 0)
  {
    hide Prompt, Left, Blank, Resume, StillToFold, SteppedOver, LeftBelow, Gone, Increasing;
    FoldLags(c, gone, start, summary);
    var folded := Prompt(c, start, summary);
    PromptAhead(c, start, summary);
    FoldedBelowDone(folded.folded);
    var d := Done(folded.folded);
    NextBoundary(folded, d, Gone(c.offset, d, gone), horizon, gone');
    forall r | r in folded.folded
      ensures
        var next := Drop(Resume(folded, horizon), gone');
        1 <= next.upto <= |next.window| + 1 &&
        (r in StillToFold(next) <==>
          next.offset <= r && r !in gone' && folded.saved - next.offset <= LeftBelow(next, r, gone'))
    {
      NextFolds(folded, horizon, gone', r);
    }
  }

  // ---- as it comes about in runs -------------------------------------------------------------------

  /** A process resumes, forgets, and goes on. */
  function Turn(steps: seq<Step>, horizon: nat, gone: set<nat>, more: seq<Step>): seq<Step> {
    steps + [Resumed(horizon), Dropped(gone)] + more
  }

  lemma RunNext(steps: seq<Step>, step: Step)
    ensures Run(steps + [step]) == Apply(Run(steps), step)
  {
    assert (steps + [step])[..|steps|] == steps;
  }

  /** Talking and prompting, it keeps showing all but what it forgot. */
  lemma {:induction false} TurnForgets(steps: seq<Step>, horizon: nat, gone: set<nat>, more: seq<Step>)
    requires forall s :: s in more ==> s.Said? || s.Prompted?
    requires forall r :: r in gone ==> r < Run(steps).records
    ensures Forgot(Run(Turn(steps, horizon, gone, more)), gone)
    ensures Run(steps).records <= Run(Turn(steps, horizon, gone, more)).records
  {
    hide Run, Forgot, Prompt, Resume, Drop;
    if more == [] {
      var resumed := steps + [Resumed(horizon)];
      assert Turn(steps, horizon, gone, more) == resumed + [Dropped(gone)];
      RunNext(steps, Resumed(horizon));
      RunNext(resumed, Dropped(gone));
      RunSound(steps);
      LoadedForgets(Run(steps), horizon, gone);
    } else {
      var init, last := more[..|more| - 1], more[|more| - 1];
      assert last in more && forall s :: s in init ==> s in more;
      assert Turn(steps, horizon, gone, more) == Turn(steps, horizon, gone, init) + [last];
      TurnForgets(steps, horizon, gone, init);
      RunNext(Turn(steps, horizon, gone, init), last);
      GoingOnForgets(Run(Turn(steps, horizon, gone, init)), gone, last);
    }
  }

  lemma LoadedForgets(c: Conversation, horizon: nat, gone: set<nat>)
    requires Sound(c)
    ensures Forgot(Drop(Resume(c, horizon), gone), gone) && Drop(Resume(c, horizon), gone).records == c.records
  {
    StepSound(c, Resumed(horizon));
    DroppingForgets(Resume(c, horizon), gone);
  }

  lemma GoingOnForgets(c: Conversation, gone: set<nat>, step: Step)
    requires Forgot(c, gone) && (step.Said? || step.Prompted?) && forall r :: r in gone ==> r < c.records
    ensures Forgot(Apply(c, step), gone) && c.records <= Apply(c, step).records
  {
    if step.Said? {
      SayingForgets(c, gone);
    } else {
      PromptSound(c, step.start, step.summary);
    }
  }

  /** What `NextProcess` says, for any process of a run in which nothing was folded twice so far. */
  lemma ForgettingAgain(steps: seq<Step>, horizon: nat, gone: set<nat>, more: seq<Step>, start: nat, summary: string,
                        horizon': nat, gone': set<nat>)
    requires AllFaithful(Turn(steps, horizon, gone, more)) && !Blank(summary)
    requires forall s :: s in more ==> s.Said? || s.Prompted?
    requires forall r :: r in gone ==> r < Run(steps).records
    requires
      var c := Run(Turn(steps, horizon, gone, more));
      c.upto < start <= |c.window| + 1
    ensures
      var c := Run(Turn(steps, horizon, gone, more));
      var folded := Prompt(c, start, summary);
      var d := Done(folded.folded);
      var next := Drop(Resume(folded, horizon'), gone');
      var before, again := Gone(c.offset, d, gone), Gone(next.offset, d, gone');
      && 1 <= next.upto <= |next.window| + 1
      && ((exists r :: r in StillToFold(next) && r in folded.folded) <==>
            exists r :: r in folded.folded && next.offset <= r && r !in gone'
                        && d - before - next.offset <= LeftBelow(next, r, gone'))
      && ((exists r :: r in SteppedOver(next) && r !in folded.folded && d <= r) <==>
            before < again && Left(d, c.records, gone') > 0)
  {
    hide Run, AllFaithful, Prompt, Resume, Drop, Ahead, Forgot, StillToFold, SteppedOver, LeftBelow, Left, Gone, Blank;
    TurnForgets(steps, horizon, gone, more);
    FaithfulRunsFoldOnce(Turn(steps, horizon, gone, more));
    NextProcess(Run(Turn(steps, horizon, gone, more)), gone, start, summary, horizon', gone');
  }

  lemma NextBoundary(c: Conversation, d: nat, lag: nat, horizon: nat, gone: set<nat>)
    requires Sound(c) && !Blank(c.summary) && d <= c.records && c.saved == d - lag
    ensures
      var next := Drop(Resume(c, horizon), gone);
      var again := Gone(next.offset, d, gone);
      && 1 <= next.upto <= |next.window| + 1
      && ((exists r :: r in StillToFold(next) && r < d) <==> again < lag && LeftBelow(next, d, gone) > 0)
      && ((exists r :: r in SteppedOver(next) && d <= r) <==> lag < again && Left(d, c.records, gone) > 0)
  {
    hide Resume, Without, Blank;
    var loaded := Resume(c, horizon);
    StepSound(c, Resumed(horizon));
    ResumeUpto(c, horizon);
    DroppingForgets(loaded, gone);
    var next := Drop(loaded, gone);
    TailAgainst(next, gone, d);
    LeftOfWindow(next, gone, d);
    GoneExactly(next.offset, d, gone);
    Compare(next, d, lag, Gone(next.offset, d, gone), LeftBelow(next, d, gone), Left(d, c.records, gone), c.saved);
  }

  lemma ResumeUpto(c: Conversation, horizon: nat)
    requires Sound(c) && !Blank(c.summary) && c.saved <= c.records
    ensures
      var c' := Resume(c, horizon);
      c'.window == Range(c'.offset, c.records) && c'.upto == 1 + Max(0, c.saved - c'.offset) && c'.records == c.records
  {
  }

  lemma Compare(c: Conversation, d: nat, lag: nat, again: nat, low: int, high: int, saved: nat)
    requires c.upto - 1 == Min(Max(0, saved - c.offset), |c.window|) && saved == d - lag
    requires again <= Max(0, d - c.offset) && low == Max(0, d - c.offset) - again <= |c.window|
    requires c.offset <= d ==> high == |c.window| - low
    ensures c.upto - 1 < low <==> again < lag && low > 0
    ensures low < c.upto - 1 <==> lag < again && high > 0
  {
  }

  /**
    If every process forgets the same messages, something is folded twice exactly when the
    next process leaves one of them unloaded and still loads something that was folded.
   */
  lemma ForgettingTheSame(c: Conversation, gone: set<nat>, start: nat, summary: string, horizon: nat)
    requires Ahead(c) && Forgot(c, gone) && c.upto < start <= |c.window| + 1 && !Blank(summary)
    ensures
      var folded := Prompt(c, start, summary);
      var next := Drop(Resume(folded, horizon), gone);
      && 1 <= next.upto <= |next.window| + 1
      && ((exists r :: r in StillToFold(next) && r in folded.folded) <==>
            next.offset < Done(folded.folded) && exists r :: r in gone && c.offset <= r < next.offset)
  {
    hide Prompt, Resume, Increasing;
    var folded := Prompt(c, start, summary);
    var d := Done(folded.folded);
    var next := Drop(Resume(folded, horizon), gone);
    FoldLags(c, gone, start, summary);
    PromptAhead(c, start, summary);
    FoldedBelowDone(folded.folded);
    NextProcess(c, gone, start, summary, horizon, gone);
    SameCounts(c, gone, start, d, next.offset);
    LastStays(c, gone, start, summary, horizon);
  }

  lemma SameCounts(c: Conversation, gone: set<nat>, start: nat, d: nat, offset: nat)
    requires Forgot(c, gone) && 2 <= start <= |c.window| + 1 && d == c.window[start - 2] + 1
    ensures Gone(offset, d, gone) < Gone(c.offset, d, gone) && offset < d <==>
              offset < d && exists r :: r in gone && c.offset <= r < offset
    ensures offset < d ==> Left(offset, d, gone) > 0 && d - 1 !in gone
  {
    GoneExactly(c.offset, offset, gone);
    StartCountsLeft(c, gone, start, d);
    if c.offset <= offset <= d {
      GoneSplit(c.offset, offset, d, gone);
    } else if offset < c.offset {
      GoneSplit(offset, c.offset, d, gone);
    }
    assert c.window[start - 2] in c.window;
    WithoutMembers(Range(c.offset, c.records), gone);
    GoneExactly(offset, d - 1, gone);
  }

  /** If anything from before the end of the fold is still to fold, its last record is. */
  lemma LastStays(c: Conversation, gone: set<nat>, start: nat, summary: string, horizon: nat)
    requires Forgot(c, gone) && c.upto < start <= |c.window| + 1
    ensures
      var folded := Prompt(c, start, summary);
      var d := Done(folded.folded);
      var next := Drop(Resume(folded, horizon), gone);
      && 1 <= next.upto <= |next.window| + 1
      && ((exists r :: r in StillToFold(next) && r < d) ==> d - 1 in StillToFold(next))
  {
    hide Resume, Prompt, StillToFold, Increasing;
    var folded := Prompt(c, start, summary);
    var d := Done(folded.folded);
    var loaded := Resume(folded, horizon);
    var next := Drop(loaded, gone);
    FoldLags(c, gone, start, summary);
    PromptSound(c, start, summary);
    StepSound(folded, Resumed(horizon));
    DroppedLoad(folded, horizon, gone);
    LastRecord(c, gone, start);
    forall r | r in StillToFold(next) && r < d
      ensures d - 1 in StillToFold(next)
    {
      LaterToo(next, r, d - 1);
    }
  }

  lemma LastRecord(c: Conversation, gone: set<nat>, start: nat)
    requires Forgot(c, gone) && 2 <= start <= |c.window| + 1
    ensures c.window[start - 2] < c.records && c.window[start - 2] !in gone
  {
    WithoutMembers(Range(c.offset, c.records), gone);
    assert c.window[start - 2] in c.window;
  }

  lemma LaterToo(c: Conversation, r: nat, later: nat)
    requires Sound(c) && r in StillToFold(c) && r <= later
    ensures r in c.window && (later in c.window ==> later in StillToFold(c))
  {
    var j :| 0 <= j < |StillToFold(c)| && StillToFold(c)[j] == r;
    assert c.window[c.upto - 1 + j] == r;
    if later in c.window {
      var k :| 0 <= k < |c.window| && c.window[k] == later;
      assert StillToFold(c)[k - (c.upto - 1)] == later;
    }
  }

  lemma DroppedLoad(c: Conversation, horizon: nat, gone: set<nat>)
    requires Sound(c)
    ensures
      var next := Drop(Resume(c, horizon), gone);
      Sound(next) && forall r: nat :: r in next.window <==> next.offset <= r < c.records && r !in gone
  {
    var loaded := Resume(c, horizon);
    StepSound(c, Resumed(horizon));
    StepSound(loaded, Dropped(gone));
    WithoutMembers(loaded.window, gone);
    RangeMembers(loaded.offset, c.records);
  }
}
