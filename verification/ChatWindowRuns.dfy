/**
  Conversations over many prompts and many processes: what is folded into the summary,
  in transcript terms, and what is not.
 */
module ChatWindowRuns {
  import opened Basics
  import opened ConversationModel

  datatype Step =
    | Said
    | Prompted(start: nat, summary: string)
    | Resumed(horizon: nat)
    | Cleared
    | Dropped(gone: set<nat>)

  function Apply(c: Conversation, step: Step): Conversation {
    match step
    case Said => Say(c)
    case Prompted(start, summary) => Prompt(c, start, summary)
    case Resumed(horizon) => Resume(c, horizon)
    case Cleared => Clear(c)
    case Dropped(gone) => Drop(c, gone)
  }

  function Run(steps: seq<Step>): Conversation {
    if steps == [] then Fresh else Apply(Run(steps[..|steps| - 1]), steps[|steps| - 1])
  }

  // ---- leaving records out -----------------------------------------------------------------

  lemma {:induction false} WithoutMembers(xs: seq<nat>, gone: set<nat>)
    ensures forall x :: x in Without(xs, gone) <==> x in xs && x !in gone
    ensures |Without(xs, gone)| <= |xs|
  {
    if xs != [] {
      WithoutMembers(xs[..|xs| - 1], gone);
      assert xs == xs[..|xs| - 1] + [xs[|xs| - 1]];
    }
  }

  lemma {:induction false} WithoutIncreasing(xs: seq<nat>, gone: set<nat>)
    requires Increasing(xs)
    ensures Increasing(Without(xs, gone))
  {
    if xs != [] {
      var init := xs[..|xs| - 1];
      assert Increasing(init);
      WithoutIncreasing(init, gone);
      WithoutMembers(init, gone);
      forall i | 0 <= i < |Without(init, gone)|
        ensures Without(init, gone)[i] < xs[|xs| - 1]
      {
        assert Without(init, gone)[i] in Without(init, gone);
        var k :| 0 <= k < |init| && init[k] == Without(init, gone)[i];
      }
    }
  }

  // ---- what every run keeps ------------------------------------------------------------------

  /** The window shows records in order, and every number stays within its bounds. */
  ghost predicate Sound(c: Conversation) {
    && Increasing(c.window) && (forall r :: r in c.window ==> c.offset <= r < c.records)
    && 1 <= c.upto <= |c.window| + 1
    && c.offset <= c.records && c.floor <= c.records && 1 <= c.saved
    && (forall r :: r in c.folded ==> r < c.records)
    && c.rollingFrom <= |c.folded| && c.savedFrom <= |c.folded|
  }

  lemma PendingMembers(c: Conversation, start: nat)
    ensures forall r :: r in Pending(c, start) ==> r in c.window
  {
  }

  lemma PromptSound(c: Conversation, start: nat, summary: string)
    requires Sound(c)
    ensures Sound(Prompt(c, start, summary))
  {
    hide Increasing;
    PendingMembers(c, start);
  }

  lemma StepSound(c: Conversation, step: Step)
    requires Sound(c)
    ensures Sound(Apply(c, step))
  {
    match step {
      case Said =>
        assert forall i :: 0 <= i < |c.window| ==> c.window[i] in c.window;
      case Prompted(start, summary) => PromptSound(c, start, summary);
      case Resumed(horizon) =>
        assert forall r :: r in Resume(c, horizon).window ==> Resume(c, horizon).offset <= r;
      case Dropped(gone) =>
        WithoutMembers(c.window, gone);
        WithoutIncreasing(c.window, gone);
      case _ =>
    }
  }

  lemma {:induction false} RunSound(steps: seq<Step>)
    ensures Sound(Run(steps))
  {
    if steps != [] {
      hide Sound, Apply;
      RunSound(steps[..|steps| - 1]);
      StepSound(Run(steps[..|steps| - 1]), steps[|steps| - 1]);
    } else {
      FreshCoherent();
    }
  }

  // ---- runs that drop nothing -----------------------------------------------------------------

  /** Nothing is forgotten in memory and no summary is blank. */
  ghost predicate Plain(steps: seq<Step>) {
    forall s :: s in steps ==> !s.Dropped? && (s.Prompted? ==> !Blank(s.summary))
  }

  /** Every record before the end of folding was folded, or was passed over, and not both. */
  ghost predicate Accounted(c: Conversation) {
    forall r: nat ::
      && (r in c.folded || r in c.passed <==> r < Done(c.folded))
      && !(r in c.folded && r in c.passed)
  }

  /** The two coordinate systems agree: the watermark is where folding stands, or where the window begins. */
  ghost predicate Coherent(c: Conversation) {
    && Sound(c)
    && c.window == Range(c.offset, c.records)
    && Increasing(c.folded) && Accounted(c)
    && Watermark(c) == Max(Done(c.folded), c.offset)
    && if Blank(c.summary) then Done(c.folded) <= c.floor else c.folded != [] && c.saved == Done(c.folded)
  }

  lemma FreshCoherent()
    ensures Coherent(Fresh)
  {
    assert Range(0, 0) == [];
  }

  lemma FoldIncreasing(folded: seq<nat>, more: seq<nat>)
    requires Increasing(folded) && Increasing(more) && more != [] && Done(folded) <= more[0]
    ensures Increasing(folded + more) && Done(folded + more) == more[|more| - 1] + 1
  {
    var all := folded + more;
    forall i, j | 0 <= i < j < |all|
      ensures all[i] < all[j]
    {
      if i < |folded| <= j {
        assert folded[i] <= folded[|folded| - 1];
        assert more[0] <= more[j - |folded|];
      }
    }
  }

  lemma RangeMembers(lo: int, hi: int)
    requires 0 <= lo <= hi
    ensures forall r: nat :: r in Range(lo, hi) <==> lo <= r < hi
  {
    forall r: nat | lo <= r < hi
      ensures r in Range(lo, hi)
    {
      assert Range(lo, hi)[r - lo] == r;
    }
  }

  lemma FoldAccounted(c: Conversation, from: nat, to: nat)
    requires Accounted(c) && Done(c.folded) <= from < to
    ensures Accounted(c.(folded := c.folded + Range(from, to), passed := c.passed + Range(Done(c.folded), from)))
  {
    RangeMembers(from, to);
    RangeMembers(Done(c.folded), from);
  }

  /** In a coherent state a fold takes exactly the records between the old and the new watermark. */
  lemma PendingRange(c: Conversation, start: nat)
    requires c.offset <= c.records && c.window == Range(c.offset, c.records)
    requires 1 <= c.upto < start <= |c.window| + 1
    ensures Pending(c, start) == Range(Watermark(c), c.offset + start - 1)
  {
  }

  lemma PromptFolds(c: Conversation, start: nat, summary: string)
    requires c.offset <= c.records && c.window == Range(c.offset, c.records)
    requires 1 <= c.upto < start <= |c.window| + 1
    ensures
      var c', from, to := Prompt(c, start, summary), Watermark(c), c.offset + start - 1;
      && c'.folded == c.folded + Range(from, to)
      && c'.passed == c.passed + Range(Done(c.folded), Max(Done(c.folded), from))
      && c'.saved == to == Watermark(c') && c'.summary == summary && c'.upto == start
      && c'.window == c.window && c'.offset == c.offset && c'.records == c.records
  {
    PendingRange(c, start);
  }

  lemma PromptCoherent(c: Conversation, start: nat, summary: string)
    requires Coherent(c) && !Blank(summary)
    ensures Coherent(Prompt(c, start, summary))
  {
    hide Accounted, Increasing, Prompt, Blank;
    PromptSound(c, start, summary);
    if 1 <= c.upto < start <= |c.window| + 1 {
      var from, to := Watermark(c), c.offset + start - 1;
      PromptFolds(c, start, summary);
      RangeIncreasing(from, to);
      FoldIncreasing(c.folded, Range(from, to));
      FoldAccounted(c, from, to);
      AccountedAlike(Prompt(c, start, summary),
        c.(folded := c.folded + Range(from, to), passed := c.passed + Range(Done(c.folded), from)));
    } else {
      PromptIdle(c, start, summary);
    }
  }

  lemma PromptIdle(c: Conversation, start: nat, summary: string)
    requires !(1 <= c.upto < start <= |c.window| + 1)
    ensures Prompt(c, start, summary) == c
  {
  }

  lemma AccountedAlike(c: Conversation, c': Conversation)
    requires c.folded == c'.folded && c.passed == c'.passed
    ensures Accounted(c) <==> Accounted(c')
  {
  }

  lemma RangeIncreasing(lo: int, hi: int)
    requires 0 <= lo <= hi
    ensures Increasing(Range(lo, hi))
  {
  }

  lemma StepCoherent(c: Conversation, step: Step)
    requires Coherent(c) && !step.Dropped? && (step.Prompted? ==> !Blank(step.summary))
    ensures Coherent(Apply(c, step))
  {
    hide Increasing, Accounted;
    StepSound(c, step);
    match step {
      case Said =>
        assert Range(c.offset, c.records) + [c.records] == Range(c.offset, c.records + 1);
        AccountedAlike(c, Say(c));
      case Prompted(start, summary) => PromptCoherent(c, start, summary);
      case Resumed(horizon) => AccountedAlike(c, Resume(c, horizon));
      case Cleared => AccountedAlike(c, Clear(c));
    }
  }

  /** Every run that drops nothing keeps the window index and the transcript watermark in agreement. */
  lemma {:induction false} PlainRunCoherent(steps: seq<Step>)
    requires Plain(steps)
    ensures Coherent(Run(steps))
  {
    if steps == [] {
      FreshCoherent();
    } else {
      hide Coherent, Apply;
      var init, last := steps[..|steps| - 1], steps[|steps| - 1];
      assert last in steps && forall s :: s in init ==> s in steps;
      PlainRunCoherent(init);
      StepCoherent(Run(init), last);
    }
  }

  // ---- each record leaves the prompt once -----------------------------------------------------

  /**
    In every such run, over any number of processes: each record is folded at most once.
    Below the end of folding it was folded or was passed over, one or the other; below the
    watermark it is one of these or lies before the window unread; from the watermark on
    it never was folded, and is in the window.
   */
  lemma FoldedAtMostOnce(steps: seq<Step>, record: nat)
    requires Plain(steps)
    ensures
      var c := Run(steps);
      && (forall i, j :: 0 <= i < |c.folded| && 0 <= j < |c.folded| && c.folded[i] == c.folded[j] ==> i == j)
      && (record < Done(c.folded) <==> record in c.folded || record in c.passed)
      && !(record in c.folded && record in c.passed)
      && (record < Watermark(c) ==> record < Done(c.folded) || record < c.offset)
      && (Watermark(c) <= record < c.records ==> record !in c.folded && record in c.window)
  {
    hide Run;
    PlainRunCoherent(steps);
    var c := Run(steps);
    RangeMembers(c.offset, c.records);
  }

  /**
    After a prompt the kept tail and the summary share out the transcript: what is not in
    the tail is below the watermark, folded or passed over or unread; and a record is in
    both exactly if it was folded earlier and its turn still fits.
   */
  lemma NoGapAfterPrompt(steps: seq<Step>, start: nat, summary: string, record: nat)
    requires Plain(steps) && !Blank(summary)
    requires 1 <= start <= |Run(steps).window| + 1 && record < Run(steps).records
    ensures
      var c, c' := Run(steps), Prompt(Run(steps), start, summary);
      var tail := c'.window[start - 1..];
      && (record !in tail ==> record in c'.folded || record in c'.passed || record < c'.offset)
      && (record >= Watermark(c') ==> record in tail && record !in c'.folded)
      && (record in tail && record in c'.folded <==>
            c.offset + start - 1 <= record < Watermark(c) && record in c.folded)
      && (start >= c.upto ==> !(record in tail && record in c'.folded))
  {
    hide Run, Accounted, Prompt, Increasing, Blank, Coherent;
    var c, c' := Run(steps), Prompt(Run(steps), start, summary);
    PlainRunCoherent(steps);
    PromptCoherent(c, start, summary);
    CoherentWindow(c);
    CoherentWindow(c');
    AccountedAt(c, record);
    AccountedAt(c', record);
    PromptTail(c, start, summary);
    TailRange(c', start);
    RangeMembers(c.offset + start - 1, c.records);
    if c.upto < start {
      PromptFolds(c, start, summary);
      RangeMembers(Watermark(c), c.offset + start - 1);
    } else {
      PromptIdle(c, start, summary);
    }
  }

  lemma PromptTail(c: Conversation, start: nat, summary: string)
    ensures
      var c' := Prompt(c, start, summary);
      c'.window == c.window && c'.offset == c.offset && c'.records == c.records
  {
  }

  lemma AccountedAt(c: Conversation, record: nat)
    requires Coherent(c)
    ensures Watermark(c) == Max(Done(c.folded), c.offset)
    ensures record in c.folded || record in c.passed <==> record < Done(c.folded)
    ensures !(record in c.folded && record in c.passed)
  {
  }

  lemma TailRange(c: Conversation, start: nat)
    requires c.offset <= c.records && c.window == Range(c.offset, c.records) && 1 <= start <= |c.window| + 1
    ensures c.window[start - 1..] == Range(c.offset + start - 1, c.records)
  {
  }

  /**
    What one prompt folds is exactly what lies between the old and the new watermark; it
    passes over only what was not loaded.
   */
  lemma PromptFoldsTheDifference(steps: seq<Step>, start: nat, summary: string)
    requires Plain(steps) && !Blank(summary)
    requires Run(steps).upto < start <= |Run(steps).window| + 1
    ensures
      var c, c' := Run(steps), Prompt(Run(steps), start, summary);
      && Watermark(c) < Watermark(c')
      && c'.folded == c.folded + Range(Watermark(c), Watermark(c')) && c'.saved == Watermark(c')
      && c'.passed == c.passed + (if Done(c.folded) < c.offset then Range(Done(c.folded), c.offset) else [])
  {
    hide Run, Accounted, Increasing, Prompt;
    var c := Run(steps);
    PlainRunCoherent(steps);
    PromptFolds(c, start, summary);
    assert Range(Done(c.folded), Done(c.folded)) == [];
    assert c.passed + [] == c.passed;
  }

  // ---- persist and restore ---------------------------------------------------------------------

  /**
    The boundary a later process restores, whatever its horizon: the saved watermark or
    the first loaded record, whichever is later, within the transcript.  A blank summary
    is not restored, and the boundary falls back to the first loaded record.
   */
  lemma ResumeBoundary(c: Conversation, horizon: nat)
    requires Sound(c)
    ensures
      var c' := Resume(c, horizon);
      Watermark(c') == if Blank(c.summary) then c'.offset else Min(Max(c.saved, c'.offset), c.records)
  {
  }

  /**
    What a later process loads: everything since the last clear, or the newest part of it if
    that is more than its horizon, which is never less than one record.
   */
  lemma LoadsExactly(c: Conversation, horizon: nat)
    requires c.floor <= c.records
    ensures
      var visible, window := Range(c.floor, c.records), Resume(c, horizon).window;
      && |window| <= |visible| && window == visible[|visible| - |window|..]
      && (|visible| <= horizon || |visible| <= 1 ==> window == visible)
      && (|visible| > horizon > 0 ==> |window| == horizon)
      && (|visible| > horizon == 0 ==> |window| == 1)
  {
  }

  // ---- what a clear hides -----------------------------------------------------------------------

  /** The process neither shows nor tells a record before `n`, and no later one will. */
  ghost predicate Hidden(c: Conversation, n: nat) {
    && Sound(c) && n <= c.floor && n <= c.offset
    && (!Blank(c.rolling) ==> forall r :: r in c.folded[c.rollingFrom..] ==> n <= r)
    && (!Blank(c.summary) ==> forall r :: r in c.folded[c.savedFrom..] ==> n <= r)
  }

  lemma ClearHides(c: Conversation, horizon: nat)
    requires Sound(c)
    ensures Hidden(Resume(Clear(c), horizon), c.records)
    ensures Resume(Clear(c), horizon).window == [] && Told(Resume(Clear(c), horizon)) == []
  {
    hide Increasing;
    StepSound(c, Cleared);
    StepSound(Clear(c), Resumed(horizon));
    BlankNothing();
  }

  lemma StepHides(c: Conversation, step: Step, n: nat)
    requires Hidden(c, n)
    ensures Hidden(Apply(c, step), n)
  {
    hide Increasing, Blank;
    StepSound(c, step);
    match step {
      case Prompted(start, summary) =>
        PendingMembers(c, start);
        PromptHides(c, start, summary, n);
      case _ =>
        BlankNothing();
    }
  }

  lemma PromptHides(c: Conversation, start: nat, summary: string, n: nat)
    requires Hidden(c, n) && forall r :: r in Pending(c, start) ==> r in c.window
    ensures
      var c' := Prompt(c, start, summary);
      && c'.rollingFrom <= |c'.folded| && c'.savedFrom <= |c'.folded| && n <= c'.floor && n <= c'.offset
      && (!Blank(c'.rolling) ==> forall r :: r in c'.folded[c'.rollingFrom..] ==> n <= r)
      && (!Blank(c'.summary) ==> forall r :: r in c'.folded[c'.savedFrom..] ==> n <= r)
  {
    hide Increasing, Blank;
    var pending := Pending(c, start);
    if pending != [] {
      var from := if Blank(c.rolling) then |c.folded| else c.rollingFrom;
      assert (c.folded + pending)[from..] == c.folded[from..] + pending;
    }
  }

  /**
    What `/clear` hides stays hidden: from the next process on, however many follow and
    whatever they do, no window shows a record from before the clear and no summary is made
    from one.
   */
  lemma {:induction false} ClearedStaysHidden(steps: seq<Step>, horizon: nat, more: seq<Step>, record: nat)
    requires record < Run(steps).records
    ensures
      var c := Run(steps + [Cleared, Resumed(horizon)] + more);
      record !in c.window && record !in Told(c)
  {
    hide Run, Increasing, Told;
    HiddenFrom(steps, horizon, more);
    HiddenMeans(Run(steps + [Cleared, Resumed(horizon)] + more), Run(steps).records, record);
  }

  lemma HiddenMeans(c: Conversation, n: nat, record: nat)
    requires Hidden(c, n) && record < n
    ensures record !in c.window && record !in Told(c)
  {
  }

  lemma {:induction false} HiddenFrom(steps: seq<Step>, horizon: nat, more: seq<Step>)
    ensures Hidden(Run(steps + [Cleared, Resumed(horizon)] + more), Run(steps).records)
  {
    hide Hidden, Apply;
    var all := steps + [Cleared, Resumed(horizon)] + more;
    if more == [] {
      var cleared := steps + [Cleared];
      assert all == cleared + [Resumed(horizon)];
      assert all[..|all| - 1] == cleared && cleared[..|steps|] == steps;
      RunSound(steps);
      ClearThenResume(Run(steps), horizon);
    } else {
      var k := |more| - 1;
      assert all[..|all| - 1] == steps + [Cleared, Resumed(horizon)] + more[..k];
      HiddenFrom(steps, horizon, more[..k]);
      StepHides(Run(all[..|all| - 1]), more[k], Run(steps).records);
    }
  }

  lemma ClearThenResume(c: Conversation, horizon: nat)
    requires Sound(c)
    ensures Hidden(Apply(Apply(c, Cleared), Resumed(horizon)), c.records)
  {
    ClearHides(c, horizon);
  }

  /**
    The process must be replaced: one that goes on after the clear and folds anything makes
    the saved summary tell of hidden records again, and every later process with it.
   */
  lemma ClearedInHand(steps: seq<Step>, start: nat, summary: string, horizon: nat)
    requires Run(steps).upto < start <= |Run(steps).window| + 1 && !Blank(summary)
    ensures
      var told := Told(Run(steps + [Cleared, Prompted(start, summary), Resumed(horizon)]));
      exists record :: record < Run(steps).records && record in told
  {
    hide Run, Increasing, Told, Blank;
    RunSound(steps);
    var one, two := steps + [Cleared], steps + [Cleared, Prompted(start, summary)];
    var three := steps + [Cleared, Prompted(start, summary), Resumed(horizon)];
    assert three[..|three| - 1] == two && two[..|two| - 1] == one && one[..|one| - 1] == steps;
    RunLast(three);
    RunLast(two);
    RunLast(one);
    FoldsHidden(Run(steps), start, summary, horizon);
  }

  lemma RunLast(steps: seq<Step>)
    requires steps != []
    ensures Run(steps) == Apply(Run(steps[..|steps| - 1]), steps[|steps| - 1])
  {
  }

  lemma FoldsHidden(c: Conversation, start: nat, summary: string, horizon: nat)
    requires Sound(c) && c.upto < start <= |c.window| + 1 && !Blank(summary)
    ensures
      exists record :: record < c.records && record in Told(Resume(Prompt(Clear(c), start, summary), horizon))
  {
    hide Increasing, Blank;
    var cleared := Clear(c);
    var folded := Prompt(cleared, start, summary);
    var pending := Pending(cleared, start);
    PendingMembers(cleared, start);
    var record := pending[0];
    assert record in pending && record in c.window;
    assert folded.folded == cleared.folded + pending && folded.savedFrom <= |cleared.folded|;
    var told := Told(Resume(folded, horizon));
    assert told == cleared.folded[folded.savedFrom..] + pending;
    assert record in told;
  }

  /** Restoring does not go back behind what was folded. */
  predicate Faithful(c: Conversation, horizon: nat) {
    Done(c.folded) <= Watermark(Resume(c, horizon))
  }

  /**
    Nothing summarised is folded again, and nothing in the window is skipped: the restored
    watermark is the end of folding, or the first loaded record if that is later.
   */
  lemma ResumeIsFaithful(steps: seq<Step>, horizon: nat)
    requires Plain(steps)
    ensures
      var c, c' := Run(steps), Resume(Run(steps), horizon);
      Faithful(c, horizon) && Watermark(c') == Max(Done(c.folded), c'.offset)
  {
    hide Run, Accounted, Increasing;
    PlainRunCoherent(steps);
    StepCoherent(Run(steps), Resumed(horizon));
  }

  /**
    Why summaries must not be blank: a fold whose summary is blank is not restored, and the
    next process goes back behind it exactly when it loads records the fold had covered.
   */
  lemma BlankSummaryForgets(steps: seq<Step>, start: nat, summary: string, horizon: nat)
    requires Plain(steps) && Blank(summary)
    requires Run(steps).upto < start <= |Run(steps).window| + 1
    ensures
      var c := Prompt(Run(steps), start, summary);
      Faithful(c, horizon) <==> Watermark(c) <= Resume(c, horizon).offset
  {
    hide Run, Accounted, Increasing, Prompt;
    PlainRunCoherent(steps);
    PromptFolds(Run(steps), start, summary);
    var c := Prompt(Run(steps), start, summary);
    assert Done(c.folded) == Watermark(c);
  }

  // ---- what a prompt leaves out ------------------------------------------------------------------

  /** A record is in the prompt word for word, or a summary is shown that was made from it. */
  predicate Represented(c: Conversation, start: nat, shown: bool, record: nat)
    requires 1 <= start <= |c.window| + 1
  {
    record in c.window[start - 1..] || (shown && record in Told(c))
  }

  ghost predicate WholeTranscript(c: Conversation, start: nat, shown: bool)
    requires 1 <= start <= |c.window| + 1
  {
    forall record: nat :: record < c.records ==> Represented(c, start, shown, record)
  }

  /** One driver shows the summary when this prompt evicted something ... */
  predicate ShownOnEviction(c: Conversation, start: nat) {
    start > 1 && !Blank(c.rolling)
  }

  /** ... the other also when hydration left something unread. */
  predicate ShownWhenNeeded(c: Conversation, start: nat) {
    !Blank(c.rolling) && (start > 1 || c.offset > 0)
  }

  /** The summary speaks of the first `n` records: nothing was cleared, passed over or left unfolded among them. */
  predicate Remembered(c: Conversation, n: nat) {
    !Blank(c.rolling) && c.rollingFrom == 0 && n <= Done(c.folded) && forall r :: r in c.passed ==> n <= r
  }

  ghost predicate SpeaksOf(c: Conversation, n: nat) {
    forall r: nat :: r < n ==> r in Told(c)
  }

  lemma ZeroIsFirst(folded: seq<nat>, from: nat)
    requires Increasing(folded) && from <= |folded|
    ensures from > 0 ==> 0 !in folded[from..]
  {
    assert forall i :: 0 < i < |folded| ==> folded[0] < folded[i];
  }

  lemma SpeaksExactly(c: Conversation, n: nat)
    requires Coherent(c) && n > 0
    ensures SpeaksOf(c, n) <==> Remembered(c, n)
  {
    hide Increasing, Accounted, Blank, Done;
    FoldedBelowDone(c.folded);
    if Remembered(c, n) {
      assert Told(c) == c.folded;
      forall r: nat | r < n
        ensures r in Told(c)
      {
        AccountedAt(c, r);
      }
    }
    if SpeaksOf(c, n) {
      assert 0 in Told(c) && n - 1 in Told(c);
      assert forall r :: r in Told(c) ==> r in c.folded;
      ZeroIsFirst(c.folded, c.rollingFrom);
      forall r | r in c.passed
        ensures n <= r
      {
        AccountedAt(c, r);
      }
    }
  }

  lemma WholeExactly(c: Conversation, start: nat, shown: bool)
    requires Coherent(c) && 1 <= start <= |c.window| + 1
    ensures WholeTranscript(c, start, shown) <==>
              c.offset + start == 1 || (shown && Remembered(c, c.offset + start - 1))
  {
    hide Coherent, Remembered, Told, WholeTranscript, SpeaksOf;
    var n := c.offset + start - 1;
    CoherentWindow(c);
    TailRange(c, start);
    if n > 0 {
      SpeaksExactly(c, n);
    }
    BeforeTheTail(c, start, shown, n);
  }

  lemma BeforeTheTail(c: Conversation, start: nat, shown: bool, n: nat)
    requires 1 <= start <= |c.window| + 1 && n <= c.records && c.window[start - 1..] == Range(n, c.records)
    ensures WholeTranscript(c, start, shown) <==> n == 0 || (shown && SpeaksOf(c, n))
  {
    hide Told;
    RangeMembers(n, c.records);
    if WholeTranscript(c, start, shown) && n > 0 {
      assert Represented(c, start, shown, 0);
      forall r: nat | r < n
        ensures r in Told(c)
      {
        assert Represented(c, start, shown, r);
      }
    }
  }

  lemma CoherentWindow(c: Conversation)
    requires Coherent(c)
    ensures 1 <= c.upto && Watermark(c) <= c.records && c.rollingFrom <= |c.folded| && c.offset <= c.records
        && c.window == Range(c.offset, c.records)
  {
  }

  /**
    When a prompt leaves nothing of the transcript unrepresented: it starts at record 0, or
    the summary is shown and speaks of everything before the tail.  Showing it on eviction
    only costs exactly the prompts that evict nothing behind an unread, remembered past.
   */
  lemma PromptRepresentsTranscript(steps: seq<Step>, start: nat)
    requires Plain(steps) && 1 <= start <= |Run(steps).window| + 1
    ensures
      var c := Run(steps);
      var n := c.offset + start - 1;
      && (WholeTranscript(c, start, ShownWhenNeeded(c, start)) <==> n == 0 || Remembered(c, n))
      && (WholeTranscript(c, start, ShownOnEviction(c, start)) <==> n == 0 || (start > 1 && Remembered(c, n)))
      && (Done(c.folded) < n ==> !WholeTranscript(c, start, true))
  {
    hide Run, Coherent, WholeTranscript, Told;
    var c := Run(steps);
    PlainRunCoherent(steps);
    WholeExactly(c, start, ShownWhenNeeded(c, start));
    WholeExactly(c, start, ShownOnEviction(c, start));
    WholeExactly(c, start, true);
  }

  /**
    The second rule asks the right question: there is a summary, and some record of the
    transcript is not in the tail.  The first asks it of the loaded records only.
   */
  lemma SummaryNeededExactly(steps: seq<Step>, start: nat)
    requires Plain(steps) && 1 <= start <= |Run(steps).window| + 1
    ensures
      var c := Run(steps);
      var tail := c.window[start - 1..];
      && (ShownWhenNeeded(c, start) <==> !Blank(c.rolling) && exists r: nat :: r < c.records && r !in tail)
      && (ShownOnEviction(c, start) <==> !Blank(c.rolling) && exists r :: r in c.window && r !in tail)
  {
    hide Run, Coherent, Blank;
    var c := Run(steps);
    PlainRunCoherent(steps);
    CoherentWindow(c);
    TailRange(c, start);
    RangeMembers(c.offset + start - 1, c.records);
    RangeMembers(c.offset, c.records);
    if start > 1 {
      assert c.offset in c.window && c.offset !in c.window[start - 1..];
    } else if c.offset > 0 {
      assert 0 !in c.window[start - 1..];
    }
  }

  /** The second driver gives up on folding when the digest it gets is empty. */
  function Digested(c: Conversation, start: nat, digest: string): Conversation {
    if digest == "" then c else Prompt(c, start, digest)
  }

  /**
    Its prompt then keeps a tail from which messages were evicted and tells nothing of them:
    something not folded before is in neither tail nor summary exactly if the digest of
    newly evicted messages was empty or blank.
   */
  lemma EmptyDigestLeavesGap(steps: seq<Step>, start: nat, digest: string)
    requires Plain(steps) && 1 <= start <= |Run(steps).window| + 1
    ensures
      var c, c' := Run(steps), Digested(Run(steps), start, digest);
      && c'.window == c.window
      && ((exists r: nat ::
             Watermark(c) <= r < c.records && !Represented(c', start, ShownWhenNeeded(c', start), r)) <==>
            c.upto < start && Blank(digest))
  {
    hide Run, Accounted, Increasing;
    PlainRunCoherent(steps);
    GapExactly(Run(steps), start, digest);
  }

  lemma GapExactly(c: Conversation, start: nat, digest: string)
    requires Coherent(c) && 1 <= start <= |c.window| + 1
    ensures
      var c' := Digested(c, start, digest);
      && c'.window == c.window
      && ((exists r: nat ::
             Watermark(c) <= r < c.records && !Represented(c', start, ShownWhenNeeded(c', start), r)) <==>
            c.upto < start && Blank(digest))
  {
    hide Accounted, Increasing, Blank;
    var c' := Digested(c, start, digest);
    TailRange(c, start);
    RangeMembers(c.offset + start - 1, c.records);
    assert Blank("") by { BlankNothing(); }
    if c.upto < start {
      PromptFolds(c, start, digest);
      RangeMembers(Watermark(c), c.offset + start - 1);
      UpToDone(c);
      if Blank(digest) {
        assert !Represented(c', start, ShownWhenNeeded(c', start), Watermark(c));
      } else {
        ToldPending(c, start, digest);
      }
    } else {
      PromptIdle(c, start, digest);
    }
  }

  lemma BlankNothing()
    ensures Blank("")
  {
  }

  /** Nothing from the watermark on was ever told. */
  lemma UpToDone(c: Conversation)
    requires Coherent(c)
    ensures forall r :: r in Told(c) ==> r < Watermark(c)
  {
    FoldedBelowDone(c.folded);
    assert forall r :: r in Told(c) ==> r in c.folded;
  }

  lemma ToldPending(c: Conversation, start: nat, digest: string)
    requires Coherent(c) && c.upto < start <= |c.window| + 1 && !Blank(digest)
    ensures forall r :: r in Pending(c, start) ==> r in Told(Prompt(c, start, digest))
    ensures Pending(c, start) == Range(Watermark(c), c.offset + start - 1)
  {
    hide Coherent, Told, Prompt, Pending, Blank;
    CoherentWindow(c);
    PendingRange(c, start);
    ToldAfter(c, start, digest);
  }

  lemma ToldAfter(c: Conversation, start: nat, digest: string)
    requires c.rollingFrom <= |c.folded| && !Blank(digest) && Pending(c, start) != []
    ensures
      var from := if Blank(c.rolling) then |c.folded| else c.rollingFrom;
      Told(Prompt(c, start, digest)) == c.folded[from..] + Pending(c, start)
  {
    hide Blank;
    var from := if Blank(c.rolling) then |c.folded| else c.rollingFrom;
    assert (c.folded + Pending(c, start))[from..] == c.folded[from..] + Pending(c, start);
  }

  // ---- all runs: when a record is folded twice -----------------------------------------------

  /** Where the boundary really is: the first record not below `upto`. */
  function Boundary(c: Conversation): nat
    requires 1 <= c.upto <= |c.window| + 1
  {
    if c.upto <= |c.window| then c.window[c.upto - 1] else c.records
  }

  /** Within one process no step goes back behind what was folded. */
  ghost predicate Ahead(c: Conversation) {
    Sound(c) && Increasing(c.folded) && Done(c.folded) <= Boundary(c)
  }

  lemma PromptAhead(c: Conversation, start: nat, summary: string)
    requires Ahead(c)
    ensures Ahead(Prompt(c, start, summary))
  {
    PromptSound(c, start, summary);
    var pending := Pending(c, start);
    if pending != [] {
      assert Increasing(pending);
      FoldIncreasing(c.folded, pending);
      if start <= |c.window| {
        assert c.window[start - 2] < c.window[start - 1];
      } else {
        assert c.window[start - 2] in c.window;
      }
    }
  }

  lemma {:induction false} WithoutShifts(xs: seq<nat>, gone: set<nat>, k: nat)
    requires Increasing(xs) && k < |Without(xs, gone)|
    ensures k < |xs| && xs[k] <= Without(xs, gone)[k]
  {
    var init := xs[..|xs| - 1];
    WithoutMembers(init, gone);
    if k < |Without(init, gone)| {
      WithoutShifts(init, gone, k);
    }
  }

  lemma DropAhead(c: Conversation, gone: set<nat>)
    requires Ahead(c)
    ensures Ahead(Drop(c, gone))
  {
    hide Increasing, Without, Done;
    StepSound(c, Dropped(gone));
    DropRaises(c, gone);
    DoneWithin(c.folded, c.records);
  }

  lemma DoneWithin(folded: seq<nat>, records: nat)
    requires forall r :: r in folded ==> r < records
    ensures Done(folded) <= records
  {
    assert folded != [] ==> folded[|folded| - 1] in folded;
  }

  /** The boundary rises, or comes to lie behind everything. */
  lemma DropRaises(c: Conversation, gone: set<nat>)
    requires Increasing(c.window) && 1 <= c.upto <= |c.window| + 1
    ensures
      var c' := Drop(c, gone);
      && 1 <= c'.upto <= |c'.window| + 1
      && (Boundary(c') == c.records || Boundary(c) <= Boundary(c'))
  {
    var c' := Drop(c, gone);
    WithoutMembers(c.window, gone);
    if c'.upto <= |c'.window| {
      WithoutShifts(c.window, gone, c'.upto - 1);
    }
  }

  lemma StepAhead(c: Conversation, step: Step)
    requires Ahead(c) && (step.Resumed? ==> Faithful(c, step.horizon))
    ensures Ahead(Apply(c, step))
  {
    StepSound(c, step);
    match step {
      case Prompted(start, summary) => PromptAhead(c, start, summary);
      case Dropped(gone) => DropAhead(c, gone);
      case _ =>
    }
  }

  /** Every process of the run started at or behind the end of folding. */
  ghost predicate AllFaithful(steps: seq<Step>) {
    forall k :: 0 <= k < |steps| && steps[k].Resumed? ==> Faithful(Run(steps[..k]), steps[k].horizon)
  }

  /**
    Whatever is dropped and however blank the summaries: if every process starts where
    folding stands or later, each record is folded at most once.
   */
  lemma {:induction false} FaithfulRunsFoldOnce(steps: seq<Step>)
    requires AllFaithful(steps)
    ensures Ahead(Run(steps))
  {
    if steps == [] {
      FreshCoherent();
    } else {
      hide Ahead, Apply, Faithful;
      var init, last := steps[..|steps| - 1], steps[|steps| - 1];
      assert forall k :: 0 <= k < |init| ==> init[..k] == steps[..k] && init[k] == steps[k];
      FaithfulRunsFoldOnce(init);
      assert steps[..|steps| - 1] == init;
      StepAhead(Run(init), last);
    }
  }

  /** What a freshly loaded process may fold: any stretch from its watermark on. */
  lemma LoadedPending(c: Conversation, end: nat)
    requires Sound(c) && c.window == Range(c.offset, c.records) && end == |c.window| + 1
    ensures forall start, r :: r in Pending(c, start) ==> Watermark(c) <= r
    ensures forall r: nat :: Watermark(c) <= r < c.records ==> r in Pending(c, end)
  {
    forall start, r | r in Pending(c, start)
      ensures Watermark(c) <= r
    {
      var i :| 0 <= i < |Pending(c, start)| && Pending(c, start)[i] == r;
    }
    forall r: nat | Watermark(c) <= r < c.records
      ensures r in Pending(c, end)
    {
      assert Pending(c, end)[r - Watermark(c)] == r;
    }
  }

  lemma FoldedBelowDone(folded: seq<nat>)
    requires Increasing(folded)
    ensures forall r :: r in folded ==> r < Done(folded)
    ensures folded != [] ==> Done(folded) - 1 in folded
  {
  }

  /**
    And if a process starts earlier, it can fold a record again: some prompt of the next
    process repeats one exactly when its restored watermark lies before the end of folding.
   */
  lemma RepeatsExactly(steps: seq<Step>, horizon: nat)
    requires AllFaithful(steps)
    ensures
      var c, c' := Run(steps), Resume(Run(steps), horizon);
      (exists start, r :: r in Pending(c', start) && r in c.folded) <==> !Faithful(c, horizon)
  {
    hide Run, Sound, Ahead, Pending, AllFaithful;
    FaithfulRunsFoldOnce(steps);
    ResumeLoads(Run(steps), horizon);
    Repeats(Run(steps), Resume(Run(steps), horizon));
  }

  lemma ResumeLoads(c: Conversation, horizon: nat)
    requires Ahead(c)
    ensures
      var c' := Resume(c, horizon);
      Sound(c') && c'.window == Range(c'.offset, c'.records) && c'.records == c.records
  {
    StepSound(c, Resumed(horizon));
  }

  lemma Repeats(c: Conversation, c': Conversation)
    requires Ahead(c) && Sound(c') && c'.window == Range(c'.offset, c'.records) && c'.records == c.records
    ensures (exists start, r :: r in Pending(c', start) && r in c.folded) <==> Watermark(c') < Done(c.folded)
  {
    hide Increasing, Boundary, Pending;
    var end := |c'.window| + 1;
    LoadedPending(c', end);
    FoldedBelowDone(c.folded);
    if Watermark(c') < Done(c.folded) {
      assert Done(c.folded) - 1 in Pending(c', end);
    }
  }
}
