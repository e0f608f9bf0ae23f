/**
  The conversation a model is shown: a message list whose old turns are evicted by a
  token budget and folded into a rolling summary, over a session transcript that
  outlives the process.  Index 0 of the list is the system prompt.
 */
module ChatWindow {
  import opened Basics
  import opened ConversationModel
  import opened ChatWindowRuns

  datatype Role = System | User | Assistant | Tool

  /** `calls` are the ids of the tool calls an assistant message makes; `callId` is the call a tool result answers. */
  datatype Message = Message(role: Role, content: string, calls: seq<string>, callId: string, fromLoop: bool,
                             elided: bool)

  // ---- costs --------------------------------------------------------------------------

  function Cost(ms: seq<Message>, cost: Message -> nat): nat {
    if ms == [] then 0 else cost(ms[0]) + Cost(ms[1..], cost)
  }

  lemma {:induction false} CostSplit(ms: seq<Message>, k: nat, cost: Message -> nat)
    requires k <= |ms|
    ensures Cost(ms, cost) == Cost(ms[..k], cost) + Cost(ms[k..], cost)
  {
    if k > 0 {
      CostSplit(ms[1..], k - 1, cost);
      assert ms[..k][1..] == ms[1..][..k - 1];
      assert ms[1..][k - 1..] == ms[k..];
    } else {
      assert ms[k..] == ms;
    }
  }

  lemma NoCost(ms: seq<Message>, cost: Message -> nat)
    ensures Cost(ms[|ms|..], cost) == 0
    ensures |ms| == 1 ==> Cost(ms, cost) == cost(ms[0])
  {
  }

  /** A longer suffix costs at least as much. */
  lemma SuffixCostMonotone(ms: seq<Message>, i: nat, j: nat, cost: Message -> nat)
    requires i <= j <= |ms|
    ensures Cost(ms[i..], cost) == Cost(ms[i..j], cost) + Cost(ms[j..], cost)
  {
    CostSplit(ms[i..], j - i, cost);
    assert ms[i..][..j - i] == ms[i..j];
    assert ms[i..][j - i..] == ms[j..];
  }

  // ---- selecting what to keep --------------------------------------------------------

  /** Positions of the user messages, in order. */
  function UserStarts(history: seq<Message>): seq<nat> {
    if history == [] then []
    else
      var k := |history| - 1;
      UserStarts(history[..k]) + if history[k].role == User then [k] else []
  }

  ghost predicate Enumerates(starts: seq<nat>, history: seq<Message>) {
    && (forall k :: 0 <= k < |starts| ==> starts[k] < |history| && history[starts[k]].role == User)
    && (forall i, j :: 0 <= i < j < |starts| ==> starts[i] < starts[j])
    && (forall p :: 0 <= p < |history| && history[p].role == User ==> p in starts)
  }

  lemma {:induction false} UserStartsExactly(history: seq<Message>)
    ensures Enumerates(UserStarts(history), history)
  {
    if history != [] {
      UserStartsExactly(history[..|history| - 1]);
    }
  }

  /** The suffix starting at a user message fits the budget. */
  predicate Fits(history: seq<Message>, start: nat, budget: nat, cost: Message -> nat)
    requires start <= |history|
  {
    Cost(history[start..], cost) <= budget
  }

  /**
    `start` begins the longest user-led suffix that fits, or, when not even the last
    turn fits, that turn.
   */
  ghost predicate Chosen(history: seq<Message>, start: nat, budget: nat, cost: Message -> nat) {
    && start < |history| && history[start].role == User
    && if Fits(history, start, budget, cost)
       then forall s :: 0 <= s < start && history[s].role == User ==> !Fits(history, s, budget, cost)
       else forall s :: start < s < |history| ==> history[s].role != User
  }

  /** The list position kept from: the chosen turn; the end if no user ever spoke; 1 if nobody did. */
  ghost predicate Selected(history: seq<Message>, start: nat, budget: nat, cost: Message -> nat) {
    if history == [] then start == 1
    else if forall m :: m in history ==> m.role != User then start == |history| + 1
    else start >= 1 && Chosen(history, start - 1, budget, cost)
  }

  lemma ChosenUnique(history: seq<Message>, s: nat, t: nat, budget: nat, cost: Message -> nat)
    requires Chosen(history, s, budget, cost) && Chosen(history, t, budget, cost)
    ensures s == t
  {
    if s < t {
      SuffixCostMonotone(history, s, t, cost);
    } else {
      SuffixCostMonotone(history, t, s, cost);
    }
  }

  /**
    The longest tail from a user message on that fits, or the last such message's if none
    does; nothing if no user ever spoke.
   */
  ghost predicate Budgeted(messages: seq<Message>, start: nat, budget: nat, cost: Message -> nat) {
    if start < |messages| then
      && 1 <= start && messages[start].role == User
      && if Cost(messages[start..], cost) <= budget
         then forall s :: 1 <= s < start && messages[s].role == User ==> Cost(messages[s..], cost) > budget
         else forall s :: start < s < |messages| ==> messages[s].role != User
    else
      start == |messages| && forall s :: 1 <= s < |messages| ==> messages[s].role != User
  }

  lemma SelectedMeans(messages: seq<Message>, start: nat, budget: nat, cost: Message -> nat)
    requires messages != [] && 1 <= start <= |messages| && Selected(messages[1..], start, budget, cost)
    ensures Budgeted(messages, start, budget, cost)
  {
    hide Cost, Chosen;
    var history := messages[1..];
    forall s | 1 <= s < |messages|
      ensures messages[s] == history[s - 1] && messages[s] in history
    {
    }
    ChosenInside(history, start - 1, budget, cost);
    if start < |messages| {
      ChosenMeans(messages, start, budget, cost);
    }
  }

  lemma ChosenInside(history: seq<Message>, start: nat, budget: nat, cost: Message -> nat)
    ensures Chosen(history, start, budget, cost) ==> start < |history|
  {
  }

  lemma ChosenMeans(messages: seq<Message>, start: nat, budget: nat, cost: Message -> nat)
    requires 1 <= start < |messages| && Chosen(messages[1..], start - 1, budget, cost)
    ensures Budgeted(messages, start, budget, cost)
  {
    hide Cost;
    var history := messages[1..];
    forall s | 1 <= s < |messages|
      ensures messages[s] == history[s - 1]
      ensures Fits(history, s - 1, budget, cost) <==> Cost(messages[s..], cost) <= budget
    {
      assert messages[s..] == history[s - 1..];
    }
  }

  /** A call's result follows it in the same user-led turn. */
  ghost predicate SameTurn(history: seq<Message>, call: nat, result: nat) {
    call < result < |history| && forall k :: call < k <= result ==> history[k].role != User
  }

  /** Eviction never keeps a tool result and drops the call it answers. */
  lemma ResultsKeepTheirCalls(history: seq<Message>, start: nat, budget: nat, cost: Message -> nat, call: nat,
                              result: nat)
    requires Chosen(history, start, budget, cost) && SameTurn(history, call, result)
    ensures result >= start ==> call >= start
  {
  }

  // ---- eliding payloads ----------------------------------------------------------------

  /** What the caller's rule makes of one message; a message is asked about until it has been marked. */
  function Elide(m: Message, rule: Message -> Option<(string, seq<string>)>): Message {
    if m.elided then m
    else
      match rule(m)
      case None => m
      case Some((content, calls)) => m.(content := content, calls := calls, elided := true)
  }

  lemma ElideOnce(m: Message, rule: Message -> Option<(string, seq<string>)>)
    ensures Elide(Elide(m, rule), rule) == Elide(m, rule)
  {
  }

  // ---- forgetting the harness's own corrections --------------------------------------------

  predicate Stale(m: Message) {
    || (m.role == User && m.fromLoop)
    || (m.role == Assistant && Blank(m.content) && m.calls == [])
  }

  function Kept(ms: seq<Message>): seq<Message> {
    if ms == [] then []
    else Kept(ms[..|ms| - 1]) + if Stale(ms[|ms| - 1]) then [] else [ms[|ms| - 1]]
  }

  // ---- messages and the records they show --------------------------------------------------

  /** The message is the transcript's, but for a payload that was elided. */
  predicate Shows(m: Message, record: Message) {
    && m.role == record.role && m.callId == record.callId && m.fromLoop == record.fromLoop
    && (m.elided || (m.content == record.content && m.calls == record.calls))
  }

  /** Message by message behind the system prompt, the list shows these records of the transcript. */
  ghost predicate Mirrors(messages: seq<Message>, window: seq<nat>, transcript: seq<Message>) {
    && |messages| == |window| + 1 && messages[0].role == System
    && forall i :: 0 <= i < |window| ==> window[i] < |transcript| && Shows(messages[i + 1], transcript[window[i]])
  }

  /** The records whose messages are stale. */
  ghost function StaleRecords(messages: seq<Message>, window: seq<nat>): set<nat>
    requires |messages| == |window| + 1
  {
    set i | 0 <= i < |window| && Stale(messages[i + 1]) :: window[i]
  }

  lemma StaleExactly(messages: seq<Message>, window: seq<nat>)
    requires |messages| == |window| + 1 && Increasing(window)
    ensures forall i :: 0 <= i < |window| ==> (window[i] in StaleRecords(messages, window) <==> Stale(messages[i + 1]))
  {
  }

  lemma LoadedMirrors(messages: seq<Message>, offset: nat, transcript: seq<Message>)
    requires offset <= |transcript| && messages != [] && messages[0].role == System
        && messages[1..] == transcript[offset..]
    ensures Mirrors(messages, Range(offset, |transcript|), transcript)
  {
    forall r | offset <= r < |transcript|
      ensures messages[r - offset + 1] == transcript[r]
    {
      assert messages[1..][r - offset] == transcript[offset..][r - offset];
    }
  }

  /** The messages between the boundary and the kept tail show the records a fold takes. */
  lemma PendingShows(messages: seq<Message>, transcript: seq<Message>, c: Conversation, start: nat)
    requires Mirrors(messages, c.window, transcript) && 1 <= c.upto <= |c.window| + 1 && start <= |messages|
    ensures |messages| == |c.window| + 1
    ensures
      var pending := if c.upto < start then messages[c.upto..start] else [];
      && |pending| == |Pending(c, start)|
      && forall i :: 0 <= i < |pending| ==>
           Pending(c, start)[i] < |transcript| && Shows(pending[i], transcript[Pending(c, start)[i]])
  {
  }

  lemma FoldsPending(c: Conversation, start: nat, summary: string)
    ensures Prompt(c, start, summary).folded == c.folded + Pending(c, start)
    ensures Pending(c, start) == [] ==> Prompt(c, start, summary) == c
  {
  }

  /** Between the two only folds happened, of consecutive messages, none beyond `start`, and the last is saved. */
  ghost predicate FoldedOn(c: Conversation, c': Conversation, start: nat) {
    && c'.window == c.window && c'.offset == c.offset && 1 <= c.upto <= c'.upto <= |c.window| + 1
    && c'.upto <= Max(c.upto, start)
    && c'.folded == c.folded + c.window[c.upto - 1..c'.upto - 1]
    && (c'.upto == c.upto ==> c' == c)
    && (c.upto < c'.upto ==>
          c'.saved == Max(c.offset + c'.upto - 1, 1) && c'.summary == c'.rolling && c'.savedFrom == c'.rollingFrom)
  }

  lemma FoldsNothing(c: Conversation, start: nat)
    requires 1 <= c.upto <= |c.window| + 1
    ensures FoldedOn(c, c, start)
  {
    assert c.folded + [] == c.folded;
  }

  lemma FoldsOn(c: Conversation, c': Conversation, start: nat, summary: string)
    requires FoldedOn(c, c', start) && c'.upto < start <= |c.window| + 1
    ensures FoldedOn(c, Prompt(c', start, summary), start) && Prompt(c', start, summary).upto == start
  {
    hide Blank, Range, Done, Prompt;
    PromptSaves(c', start, summary);
    SliceOn(c.folded, c.window, c.upto - 1, c'.upto - 1, start - 1);
  }

  lemma PromptSaves(c: Conversation, start: nat, summary: string)
    requires 1 <= c.upto < start <= |c.window| + 1
    ensures
      var c' := Prompt(c, start, summary);
      && c'.window == c.window && c'.offset == c.offset && c'.upto == start
      && c'.folded == c.folded + c.window[c.upto - 1..start - 1]
      && c'.saved == Max(c.offset + start - 1, 1) && c'.summary == c'.rolling && c'.savedFrom == c'.rollingFrom
  {
    hide Blank, Range, Done, Max;
  }

  lemma SliceOn(folded: seq<nat>, window: seq<nat>, i: nat, j: nat, k: nat)
    requires i <= j <= k <= |window|
    ensures (folded + window[i..j]) + window[j..k] == folded + window[i..k]
  {
    assert window[i..j] + window[j..k] == window[i..k];
  }

  lemma FoldsFurther(c: Conversation, c': Conversation, start: nat, next: nat)
    requires FoldedOn(c, c', start) && start <= next
    ensures FoldedOn(c, c', next)
  {
  }

  lemma SystemStays(m: Message)
    ensures m.role == System ==> !Stale(m)
  {
  }

  /** Forgetting messages and leaving out their records is the same thing. */
  lemma {:induction false} KeptMirrors(messages: seq<Message>, window: seq<nat>, transcript: seq<Message>,
                                       gone: set<nat>)
    requires Mirrors(messages, window, transcript)
    requires forall i :: 0 <= i < |window| ==> (window[i] in gone <==> Stale(messages[i + 1]))
    ensures Mirrors(Kept(messages), Without(window, gone), transcript)
  {
    hide Shows, Stale;
    SystemStays(messages[0]);
    var k := |window| - 1;
    if window == [] {
      assert Kept(messages[..0]) == [];
      assert Kept(messages) == [messages[0]];
    } else {
      KeptMirrors(messages[..k + 1], window[..k], transcript, gone);
    }
  }

  // ---- the session and the state ----------------------------------------------------------

  /**
    What survives the process: the transcript, the summary with its watermark, and the
    clear floor.  The ghost fields are history, for the proofs.
   */
  class Session {
    var transcript: seq<Message>
    var summary: string
    var summarizedUpto: nat
    var floor: nat
    ghost var folded: seq<nat>
    ghost var savedFrom: nat
    ghost var passed: seq<nat>

    constructor ()
      ensures AtRest() == Fresh
    {
      transcript, summary, summarizedUpto, floor := [], "", 1, 0;
      folded, savedFrom, passed := [], 0, [];
    }

    /** The session with no process on it. */
    ghost function AtRest(): Conversation
      reads this
    {
      Conversation(|transcript|, summary, summarizedUpto, floor, 0, [], 1, "", folded, savedFrom, 0, passed)
    }

    method AppendMessage(m: Message)
      modifies this`transcript
      ensures transcript == old(transcript) + [m]
    {
      transcript := transcript + [m];
    }

    method SaveSummary(text: string, upto: nat)
      modifies this`summary, this`summarizedUpto
      ensures summary == text && summarizedUpto == Max(upto, 1)
    {
      summary := text;
      summarizedUpto := Max(upto, 1);
    }

    /** `/clear`: the model starts fresh from here; nothing is deleted, and nothing goes back behind it. */
    method ClearContext() returns (forgotten: nat)
      requires Sound(AtRest())
      modifies this`summary, this`summarizedUpto, this`floor, this`savedFrom
      ensures forgotten == |transcript|
      ensures AtRest() == Clear(old(AtRest()))
      ensures floor == |transcript| && summary == "" && summarizedUpto == Max(|transcript|, 1)
      ensures Sound(AtRest()) && forall horizon :: Faithful(AtRest(), horizon)
    {
      forgotten := |transcript|;
      floor := forgotten;
      summary := "";
      summarizedUpto := Max(forgotten, 1);
      savedFrom := |folded|;
      assert folded != [] ==> folded[|folded| - 1] in folded;
    }
  }

  class ChatState {
    const session: Session
    var messages: seq<Message>
    var rollingSummary: string
    var summarizedUpto: nat
    var hydrationOffset: nat
    ghost var window: seq<nat>   // the record each message shows
    ghost var rollingFrom: nat

    /** The list shows the transcript, record for record, and the numbers are in order. */
    ghost predicate Valid()
      reads this, session
    {
      Mirrors(messages, window, session.transcript) && Sound(View())
    }

    ghost function View(): Conversation
      reads this, session
    {
      Conversation(|session.transcript|, session.summary, session.summarizedUpto, session.floor,
                   hydrationOffset, window, summarizedUpto, rollingSummary,
                   session.folded, session.savedFrom, rollingFrom, session.passed)
    }

    /**
      A process resuming a session: the last `horizon` records above the clear floor are
      loaded, and the saved watermark is translated into this window.
     */
    constructor (session: Session, systemPrompt: string, horizon: nat)
      requires Sound(session.AtRest())
      ensures this.session == session && Valid() && session.floor <= |session.transcript|
      ensures View() == Resume(old(session.AtRest()), horizon)
      ensures messages != [] && messages[0] == Message(System, systemPrompt, [], "", false, false)
      ensures messages[1..] == session.transcript[hydrationOffset..]
      ensures
        var visible := session.transcript[session.floor..];
        var loaded := |messages| - 1;
        && messages[1..] == visible[|visible| - loaded..]
        && (|visible| <= Max(1, horizon) ==> loaded == |visible|)
        && (|visible| > Max(1, horizon) ==> loaded == Max(1, horizon))
      ensures rollingSummary == if Blank(session.summary) then "" else session.summary
    {
      hide Sound, Blank, Mirrors;
      SoundParts(session.AtRest());
      var keep := Max(1, horizon);
      var every := session.transcript[session.floor..];
      var records := if keep < |every| then every[|every| - keep..] else every;
      var offset := session.floor + Max(0, |every| - |records|);
      this.session := session;
      hydrationOffset := offset;
      messages := [Message(System, systemPrompt, [], "", false, false)] + records;
      window := Range(offset, |session.transcript|);
      rollingSummary := "";
      rollingFrom := session.savedFrom;
      summarizedUpto := 1;
      if !Blank(session.summary) {
        rollingSummary := session.summary;
        var already := Max(0, Max(session.summarizedUpto, 1) - offset);
        summarizedUpto := Max(1, Min(1 + already, 1 + |records|));
      }
      new;
      assert session.transcript[hydrationOffset..] == records == messages[1..];
      assert records == every[|every| - |records|..];
      StepSound(session.AtRest(), Resumed(horizon));
      LoadedMirrors(messages, offset, session.transcript);
    }

    method Append(m: Message)
      requires Valid()
      modifies this`messages, this`window, session`transcript
      ensures Valid() && messages == old(messages) + [m]
      ensures session.transcript == old(session.transcript) + [m]
      ensures View() == Say(old(View()))
    {
      StepSound(View(), Said);
      messages := messages + [m];
      window := window + [|session.transcript|];
      session.AppendMessage(m);
    }

    /** The kept tail and where it starts; the budget pays for the system prompt first. */
    method SelectForBudget(maxTokens: nat, systemCost: nat, cost: Message -> nat)
      returns (tail: seq<Message>, start: nat)
      requires Valid()
      ensures 1 <= start <= |messages| && tail == messages[start..]
      ensures Selected(messages[1..], start, Max(0, maxTokens - systemCost), cost)
      ensures Budgeted(messages, start, Max(0, maxTokens - systemCost), cost)
    {
      hide Chosen, UserStarts, Cost, Budgeted;
      var history := messages[1..];
      if history == [] {
        SelectedMeans(messages, 1, Max(0, maxTokens - systemCost), cost);
        return [], 1;
      }
      var budget := Max(0, maxTokens - systemCost);
      var starts := UserStarts(history);
      UserStartsExactly(history);
      if starts == [] {
        forall m | m in history
          ensures m.role != User
        {
          var p :| 0 <= p < |history| && history[p] == m;
        }
        SelectedMeans(messages, |messages|, budget, cost);
        return [], |messages|;
      }
      assert history[starts[0]] in history;
      var startRel := LastTurnsWithin(history, starts, budget, cost);
      start := startRel + 1;
      tail := messages[start..];
      SelectedMeans(messages, start, budget, cost);
    }

    /** The backward walk over turn starts: whole turns are added while they fit. */
    static method LastTurnsWithin(history: seq<Message>, starts: seq<nat>, budget: nat, cost: Message -> nat)
      returns (startRel: nat)
      requires Enumerates(starts, history) && starts != []
      ensures startRel < |history| && Chosen(history, startRel, budget, cost)
    {
      hide Chosen, Cost;
      NoCost(history, cost);
      var used, end, k := 0, |history|, |starts|;
      startRel := starts[|starts| - 1];
      while k > 0
        invariant 0 <= k <= |starts| && 0 <= end <= |history|
        invariant used == Cost(history[end..], cost)
        invariant k == |starts| ==> end == |history| && startRel == starts[|starts| - 1]
        invariant k < |starts| ==> end == startRel == starts[k] && used <= budget
      {
        var s := starts[k - 1];
        Neighbours(history, starts, k - 1);
        if k < |starts| {
          Neighbours(history, starts, k);
        }
        var turn := Cost(history[s..end], cost);
        SuffixCostMonotone(history, s, end, cost);
        if end != |history| && used + turn > budget {
          break;
        }
        used := used + turn;
        startRel := s;
        end := s;
        k := k - 1;
        if used > budget {
          break;
        }
      }
      StopIsChosen(history, starts, k, budget, cost);
    }

    method NewlyEvicted(start: nat) returns (pending: seq<Message>)
      requires Valid() && start <= |messages|
      ensures pending == if summarizedUpto < start then messages[summarizedUpto..start] else []
    {
      var lower := Max(1, summarizedUpto);
      pending := if lower <= start then messages[lower..start] else [];
    }

    /** The watermark is saved in transcript terms: the next process counts from another place. */
    method UpdateRollingSummary(summary: string, start: nat)
      requires Valid() && summarizedUpto < start <= |messages|
      modifies this`rollingSummary, this`summarizedUpto, this`rollingFrom
      modifies session`summary, session`summarizedUpto, session`folded, session`savedFrom, session`passed
      ensures Valid() && rollingSummary == summary
      ensures View() == Prompt(old(View()), start, summary)
    {
      ghost var next := Prompt(View(), start, summary);
      PromptSound(View(), start, summary);
      rollingSummary := summary;
      summarizedUpto := Max(summarizedUpto, start);
      session.SaveSummary(summary, hydrationOffset + Max(0, summarizedUpto - 1));
      rollingFrom := next.rollingFrom;
      session.folded, session.savedFrom, session.passed := next.folded, next.savedFrom, next.passed;
    }

    /**
      One prompt: select, fold what is newly evicted, keep the tail.  `summary` is whatever
      the summarizer answers for the pending messages, which show the records now folded.
     */
    method MessagesWithinBudget(maxTokens: nat, systemCost: nat, cost: Message -> nat, summary: string)
      returns (tail: seq<Message>, start: nat, pending: seq<Message>, summaryShown: bool)
      requires Valid()
      modifies this`rollingSummary, this`summarizedUpto, this`rollingFrom
      modifies session`summary, session`summarizedUpto, session`folded, session`savedFrom, session`passed
      ensures Valid() && 1 <= start <= |messages| && tail == messages[start..]
      ensures Selected(messages[1..], start, Max(0, maxTokens - systemCost), cost)
      ensures View() == Prompt(old(View()), start, summary)
      ensures |pending| == |Pending(old(View()), start)|
      ensures forall i :: 0 <= i < |pending| ==>
                && Pending(old(View()), start)[i] < |session.transcript|
                && Shows(pending[i], session.transcript[Pending(old(View()), start)[i]])
      ensures session.folded == old(session.folded) + Pending(old(View()), start)
      ensures summaryShown == ShownOnEviction(View(), start)
    {
      hide Sound, Mirrors, Selected, Budgeted, Shows;
      tail, start := SelectForBudget(maxTokens, systemCost, cost);
      pending := [];
      SoundParts(View());
      PendingShows(messages, session.transcript, View(), start);
      FoldsPending(View(), start, summary);
      if start > 1 {
        pending := NewlyEvicted(start);
        if pending != [] {
          UpdateRollingSummary(summary, start);
        }
      }
      summaryShown := start > 1 && !Blank(rollingSummary);
    }

    /** Whether the summary speaks of anything that is not in the prompt. */
    method ShouldIncludeSummary(start: nat) returns (included: bool)
      ensures included == ShownWhenNeeded(View(), start)
    {
      if Blank(rollingSummary) {
        return false;
      }
      return start > 1 || hydrationOffset > 0;
    }

    /**
      The other driver: after a fold the summary is longer, so the selection is made again,
      until nothing more is evicted.  An empty digest ends it with nothing folded.
     */
    method MessagesRebudgeted(budgets: nat -> nat, systemCost: nat, cost: Message -> nat, digests: nat -> string)
      returns (tail: seq<Message>, start: nat, included: bool)
      requires Valid()
      modifies this`rollingSummary, this`summarizedUpto, this`rollingFrom
      modifies session`summary, session`summarizedUpto, session`folded, session`savedFrom, session`passed
      ensures Valid() && 1 <= start <= |messages| && tail == messages[start..]
      ensures exists n: nat :: Selected(messages[1..], start, Max(0, budgets(n) - systemCost), cost)
      ensures FoldedOn(old(View()), View(), start)
      ensures summarizedUpto < start ==> exists n: nat :: digests(n) == ""
      ensures included == ShownWhenNeeded(View(), start)
    {
      hide Sound, Mirrors, Selected, Budgeted, FoldedOn, Prompt, Blank, ShownWhenNeeded;
      ghost var c := View();
      SoundParts(c);
      MirrorsParts(messages, window, session.transcript);
      tail, start := SelectForBudget(budgets(0), systemCost, cost);
      FoldsNothing(c, start);
      var n: nat := 0;
      while start > 1
        invariant Valid() && 1 <= start <= |messages| == |window| + 1 && tail == messages[start..]
        invariant Selected(messages[1..], start, Max(0, budgets(n) - systemCost), cost)
        invariant FoldedOn(c, View(), start) && |c.window| == |window|
        decreases |messages| - start
      {
        var evicted := NewlyEvicted(start);
        if evicted == [] {
          break;
        }
        var digest := digests(n);
        if digest == "" {
          break;
        }
        FoldsOn(c, View(), start, digest);
        UpdateRollingSummary(digest, start);
        var nextTail, nextStart := SelectForBudget(budgets(n + 1), systemCost, cost);
        if nextStart <= start {
          break;
        }
        FoldsFurther(c, View(), start, nextStart);
        tail, start, n := nextTail, nextStart, n + 1;
      }
      SoundParts(View());
      included := ShouldIncludeSummary(start);
    }

    /** Forgets the harness's own corrections; the boundary is only clamped to the new length. */
    method DropStaleLoopMessages() returns (dropped: nat)
      requires Valid()
      modifies this`messages, this`summarizedUpto, this`window
      ensures Valid() && messages == Kept(old(messages)) && dropped == |old(messages)| - |messages|
      ensures View() == Drop(old(View()), StaleRecords(old(messages), old(window)))
      ensures forall m :: m in messages ==> !(m.role == User && m.fromLoop)
      ensures
        forall m :: m in old(messages) ==>
          (m.role == Assistant ==> m.calls != []) && (m.role == User ==> !m.fromLoop) ==> m in messages
    {
      hide Sound, Shows, Kept, Blank, Without;
      KeptMembers(messages);
      ghost var gone := StaleRecords(messages, window);
      StepSound(View(), Dropped(gone));
      SoundParts(View());
      StaleExactly(messages, window);
      KeptMirrors(messages, window, session.transcript, gone);
      var kept := [];
      dropped := 0;
      assert messages[..0] == [];
      MirrorsParts(messages, window, session.transcript);
      KeptNothing();
      forall i | 0 <= i < |messages|
        ensures Kept(messages[..i + 1]) == Kept(messages[..i]) + if Stale(messages[i]) then [] else [messages[i]]
      {
        KeptNext(messages, i);
      }
      for i := 0 to |messages|
        invariant kept == Kept(messages[..i]) && dropped == i - |kept|
      {
        var m := messages[i];
        if m.role == User && m.fromLoop {
          dropped := dropped + 1;
          continue;
        }
        if m.role == Assistant && Blank(m.content) && m.calls == [] {
          dropped := dropped + 1;
          continue;
        }
        kept := kept + [m];
      }
      assert messages[..|messages|] == messages;
      if dropped > 0 {
        messages := kept;
        window := Without(window, gone);
        summarizedUpto := Min(summarizedUpto, |messages|);
      } else {
        KeptAll(messages);
        WithoutAll(window, gone);
      }
    }

    /**
      Shrinks payloads older than the last `keepRecent` messages, oldest first, until
      `enough` says the list is small enough.  No message is removed.
     */
    method ElideOldPayloads(keepRecent: nat, rule: Message -> Option<(string, seq<string>)>,
                            enough: seq<Message> -> bool)
      returns (changed: nat)
      requires Valid()
      modifies this`messages
      ensures Valid() && |messages| == |old(messages)|
      ensures exists stop ::
                && 1 <= stop <= Max(1, |messages| - keepRecent) && ElidedUpTo(old(messages), messages, stop, rule)
                && (stop < Max(1, |messages| - keepRecent) ==> enough(messages))
                && NoMoreThanNeeded(old(messages), stop, rule, enough)
      ensures changed == Shrunk(old(messages), messages)
    {
      hide Sound, Mirrors, NoMoreThanNeeded;
      NothingElided(messages, window, session.transcript, rule, enough);
      var cutoff := Max(1, |messages| - keepRecent);
      changed := 0;
      ghost var before := messages;
      var i := 1;
      ShrunkSame(before);
      while i < cutoff
        invariant 1 <= i <= cutoff
        invariant ElidedUpTo(before, messages, i, rule)
        invariant NoMoreThanNeeded(before, i, rule, enough)
        invariant changed == Shrunk(before, messages)
        invariant Valid()
      {
        var m := messages[i];
        NeededNext(before, messages, i, rule, enough);
        if !m.elided {
          if enough(messages) {
            break;
          }
          match rule(m) {
            case None =>
            case Some((content, calls)) =>
              ElidedMirrors(messages, window, session.transcript, i, content, calls);
              ShrunkUpdate(before, messages, i, m.(content := content, calls := calls, elided := true));
              if content != m.content || calls != m.calls {
                changed := changed + 1;
              }
              messages := messages[i := m.(content := content, calls := calls, elided := true)];
          }
        }
        i := i + 1;
      }
    }
  }

  /** Nothing user-led lies between neighbouring starts, nor after the last. */
  lemma Neighbours(history: seq<Message>, starts: seq<nat>, k: nat)
    requires Enumerates(starts, history) && k < |starts|
    ensures starts[k] < |history| && history[starts[k]].role == User
    ensures k > 0 ==> starts[k - 1] < starts[k]
    ensures forall t :: 0 <= t < starts[k] && history[t].role == User ==> k > 0 && t <= starts[k - 1]
    ensures k == |starts| - 1 ==> forall t :: starts[k] < t < |history| ==> history[t].role != User
  {
    forall t | 0 <= t < |history| && history[t].role == User
      ensures t < starts[k] ==> k > 0 && t <= starts[k - 1]
      ensures t > starts[k] ==> k < |starts| - 1
    {
      var h :| 0 <= h < |starts| && starts[h] == t;
      assert h < k - 1 ==> starts[h] < starts[k - 1];
      assert h > k ==> starts[h] > starts[k];
    }
  }

  /** Where the selection loop stops, it has found the chosen start. */
  lemma StopIsChosen(history: seq<Message>, starts: seq<nat>, k: nat, budget: nat, cost: Message -> nat)
    requires Enumerates(starts, history) && k < |starts|
    requires forall h :: 0 <= h < |starts| ==> starts[h] <= |history|
    requires Fits(history, starts[k], budget, cost) ==> k == 0 || !Fits(history, starts[k - 1], budget, cost)
    requires !Fits(history, starts[k], budget, cost) ==> k == |starts| - 1
    ensures Chosen(history, starts[k], budget, cost)
  {
    hide Enumerates, Cost;
    Neighbours(history, starts, k);
    if Fits(history, starts[k], budget, cost) {
      forall t | 0 <= t < starts[k] && history[t].role == User
        ensures !Fits(history, t, budget, cost)
      {
        SuffixCostMonotone(history, t, starts[k - 1], cost);
      }
    }
  }

  // ---- what elision leaves alone ------------------------------------------------------------

  ghost predicate ElidedUpTo(before: seq<Message>, after: seq<Message>, stop: nat,
                             rule: Message -> Option<(string, seq<string>)>) {
    && |after| == |before|
    && (forall i :: 0 <= i < |before| && (i == 0 || stop <= i) ==> after[i] == before[i])
    && (forall i :: 1 <= i < stop && i < |before| ==> after[i] == Elide(before[i], rule))
  }

  /** Whenever a message was to be shrunk, the list was not small enough yet. */
  ghost predicate NoMoreThanNeeded(before: seq<Message>, stop: nat, rule: Message -> Option<(string, seq<string>)>,
                                   enough: seq<Message> -> bool) {
    forall i: nat, mid :: 1 <= i < stop && i < |before| && ElidedUpTo(before, mid, i, rule) && !before[i].elided ==>
        !enough(mid)
  }

  lemma NothingElided(messages: seq<Message>, window: seq<nat>, transcript: seq<Message>,
                      rule: Message -> Option<(string, seq<string>)>, enough: seq<Message> -> bool)
    requires Mirrors(messages, window, transcript)
    ensures messages != [] && NoMoreThanNeeded(messages, 1, rule, enough)
  {
  }

  lemma ElidedMirrors(messages: seq<Message>, window: seq<nat>, transcript: seq<Message>, i: nat, content: string,
                      calls: seq<string>)
    requires Mirrors(messages, window, transcript) && 1 <= i < |messages|
    ensures Mirrors(messages[i := messages[i].(content := content, calls := calls, elided := true)], window, transcript)
  {
  }

  lemma NeededNext(before: seq<Message>, mid: seq<Message>, i: nat, rule: Message -> Option<(string, seq<string>)>,
                   enough: seq<Message> -> bool)
    requires i < |before| && ElidedUpTo(before, mid, i, rule) && NoMoreThanNeeded(before, i, rule, enough)
    ensures before[i].elided || !enough(mid) ==> NoMoreThanNeeded(before, i + 1, rule, enough)
  {
    forall other | ElidedUpTo(before, other, i, rule)
      ensures other == mid
    {
    }
  }

  predicate SamePayload(m: Message, n: Message) {
    m.content == n.content && m.calls == n.calls
  }

  /** How many messages changed in content or calls. */
  function Shrunk(before: seq<Message>, after: seq<Message>): nat
    requires |before| == |after|
  {
    if before == [] then 0
    else
      var k := |before| - 1;
      Shrunk(before[..k], after[..k]) + if SamePayload(before[k], after[k]) then 0 else 1
  }

  lemma {:induction false} ShrunkSame(ms: seq<Message>)
    ensures Shrunk(ms, ms) == 0
  {
    if ms != [] {
      ShrunkSame(ms[..|ms| - 1]);
    }
  }

  lemma {:induction false} ShrunkUpdate(before: seq<Message>, after: seq<Message>, i: nat, m: Message)
    requires |before| == |after| && i < |after| && after[i] == before[i]
    ensures Shrunk(before, after[i := m]) == Shrunk(before, after) + if SamePayload(before[i], m) then 0 else 1
  {
    var k := |before| - 1;
    if i < k {
      ShrunkUpdate(before[..k], after[..k], i, m);
      assert after[i := m][..k] == after[..k][i := m];
    } else {
      assert after[i := m][..k] == after[..k];
    }
  }

  /** Message by message: the rule's answer is taken over whole, once, and only within the range. */
  lemma ElidedExactly(before: seq<Message>, after: seq<Message>, stop: nat,
                      rule: Message -> Option<(string, seq<string>)>, i: nat)
    requires ElidedUpTo(before, after, stop, rule) && i < |before|
    ensures after[i] != before[i] ==> 1 <= i < stop && !before[i].elided && rule(before[i]).Some?
    ensures 1 <= i < stop && !before[i].elided && rule(before[i]).Some? ==>
              && after[i].content == rule(before[i]).value.0 && after[i].calls == rule(before[i]).value.1
              && after[i].elided
  {
  }

  /** Eliding again, over the same range, changes nothing more. */
  lemma ElisionIdempotent(before: seq<Message>, after: seq<Message>, again: seq<Message>, stop: nat,
                          rule: Message -> Option<(string, seq<string>)>)
    requires ElidedUpTo(before, after, stop, rule) && ElidedUpTo(after, again, stop, rule)
    ensures again == after && Shrunk(after, again) == 0
  {
    forall i | 0 <= i < |after|
      ensures again[i] == after[i]
    {
      if 1 <= i < stop {
        ElideOnce(before[i], rule);
      }
    }
    ShrunkSame(after);
  }

  /** Who said what and which call a result answers never changes, so results keep their calls. */
  lemma ElisionKeepsTurns(before: seq<Message>, after: seq<Message>, stop: nat,
                          rule: Message -> Option<(string, seq<string>)>, call: nat, result: nat)
    requires ElidedUpTo(before, after, stop, rule)
    ensures forall i :: 0 <= i < |before| ==>
              after[i].role == before[i].role && after[i].callId == before[i].callId
                  && after[i].fromLoop == before[i].fromLoop
    ensures SameTurn(after, call, result) <==> SameTurn(before, call, result)
  {
  }

  // ---- forgetting the harness's own messages ------------------------------------------------------

  lemma {:induction false} KeptSplit(xs: seq<Message>, ys: seq<Message>)
    ensures Kept(xs + ys) == Kept(xs) + Kept(ys)
  {
    if ys == [] {
      assert xs + ys == xs;
    } else {
      var k := |ys| - 1;
      KeptSplit(xs, ys[..k]);
      assert (xs + ys)[..|xs| + k] == xs + ys[..k];
    }
  }

  /**
    Nothing but the loop's own corrections and the assistant's empty answers goes: a message
    that makes calls, answers one, says something, or came from the user, stays as often as
    it was there.  What stays keeps its order, as `KeptSplit` says.
   */
  lemma {:induction false} KeptExactly(ms: seq<Message>, m: Message)
    ensures multiset(Kept(ms))[m] ==
              if m.role == User && m.fromLoop then 0
              else if m.role == Assistant && m.calls == [] && (forall c :: c in m.content ==> IsSpace(c)) then 0
              else multiset(ms)[m]
  {
    if ms != [] {
      var k := |ms| - 1;
      KeptExactly(ms[..k], m);
      assert ms == ms[..k] + [ms[k]];
    }
  }

  lemma KeptNothing()
    ensures Kept([]) == []
  {
  }

  lemma KeptNext(ms: seq<Message>, i: nat)
    requires i < |ms|
    ensures Kept(ms[..i + 1]) == Kept(ms[..i]) + if Stale(ms[i]) then [] else [ms[i]]
  {
    assert ms[..i + 1][..i] == ms[..i];
  }

  lemma KeptMembers(ms: seq<Message>)
    ensures forall m :: m in Kept(ms) ==> !(m.role == User && m.fromLoop)
    ensures forall m :: m in ms && (m.role == Assistant ==> m.calls != []) && (m.role == User ==> !m.fromLoop) ==>
              m in Kept(ms)
  {
    hide Kept;
    forall m
      ensures m in Kept(ms) ==> !(m.role == User && m.fromLoop)
      ensures m in ms && (m.role == Assistant ==> m.calls != []) && (m.role == User ==> !m.fromLoop) ==> m in Kept(ms)
    {
      KeptExactly(ms, m);
      assert m in Kept(ms) <==> m in multiset(Kept(ms));
      assert m in ms <==> m in multiset(ms);
    }
  }

  lemma {:induction false} KeptShorter(ms: seq<Message>)
    ensures |Kept(ms)| <= |ms|
  {
    if ms != [] {
      KeptShorter(ms[..|ms| - 1]);
    }
  }

  /**
    The clamped boundary steps over survivors that were never summarised: as many as were
    dropped below it, or all of them if there are fewer.  So it stays right exactly when
    nothing was dropped below it or nothing survived above it.
   */
  lemma DroppingShiftsTheBoundary(messages: seq<Message>, upto: nat)
    requires 1 <= upto <= |messages|
    ensures
      var right := |Kept(messages[..upto])|;
      var droppedBelow, survivors := upto - right, |Kept(messages[upto..])|;
      && Min(upto, |Kept(messages)|) - right == Min(droppedBelow, survivors)
      && (Min(upto, |Kept(messages)|) == right <==> droppedBelow == 0 || survivors == 0)
  {
    assert messages == messages[..upto] + messages[upto..];
    KeptSplit(messages[..upto], messages[upto..]);
    KeptShorter(messages[..upto]);
  }

  lemma MirrorsParts(messages: seq<Message>, window: seq<nat>, transcript: seq<Message>)
    requires Mirrors(messages, window, transcript)
    ensures |messages| == |window| + 1
  {
  }

  lemma SoundParts(c: Conversation)
    requires Sound(c)
    ensures Increasing(c.window) && 1 <= c.upto <= |c.window| + 1 && c.floor <= c.records
  {
  }

  lemma {:induction false} WithoutAll(xs: seq<nat>, gone: set<nat>)
    requires |Without(xs, gone)| == |xs|
    ensures Without(xs, gone) == xs
  {
    if xs != [] {
      var init := xs[..|xs| - 1];
      WithoutShorter(init, gone);
      WithoutAll(init, gone);
      assert xs == init + [xs[|xs| - 1]];
    }
  }

  lemma WithoutShorter(xs: seq<nat>, gone: set<nat>)
    ensures |Without(xs, gone)| <= |xs|
  {
    WithoutMembers(xs, gone);
  }

  lemma {:induction false} KeptAll(ms: seq<Message>)
    requires |Kept(ms)| == |ms|
    ensures Kept(ms) == ms
  {
    hide Stale;
    if ms != [] {
      var init := ms[..|ms| - 1];
      KeptShorter(init);
      KeptAll(init);
      assert ms == init + [ms[|ms| - 1]];
    }
  }
}
