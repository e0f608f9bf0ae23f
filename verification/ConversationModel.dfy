/**
  A conversation in transcript terms: which records a process has loaded, how far it has
  folded them into a summary, and what is saved for the next process.
 */
module ConversationModel {
  import opened Basics

  // ---- lists of record numbers -----------------------------------------------------------

  function Range(lo: int, hi: int): (r: seq<nat>)
    requires 0 <= lo <= hi
    ensures |r| == hi - lo && forall i :: 0 <= i < |r| ==> r[i] == lo + i
  {
    seq(hi - lo, i requires 0 <= i < hi - lo => lo + i)
  }

  ghost predicate Increasing(xs: seq<nat>) {
    forall i, j :: 0 <= i < j < |xs| ==> xs[i] < xs[j]
  }

  /** The list without some records. */
  function Without(xs: seq<nat>, gone: set<nat>): seq<nat> {
    if xs == [] then []
    else Without(xs[..|xs| - 1], gone) + if xs[|xs| - 1] in gone then [] else [xs[|xs| - 1]]
  }

  // ---- the state ----------------------------------------------------------------------------

  /**
    A session and the process driving it.  List position `i` of the process, counted from 1
    behind the system prompt, shows record `window[i - 1]` of the transcript; `upto` is the
    position of the first message not yet folded.  The last four fields are history: the
    records folded so far, in order; from which of them on the saved and the running
    summary speak; and the records a fold passed over.
   */
  datatype Conversation = Conversation(
    records: nat,        // records in the transcript
    summary: string,     // saved summary ...
    saved: nat,          // ... and its watermark, in records
    floor: nat,          // records hidden by /clear
    offset: nat,         // records hydration did not load
    window: seq<nat>,
    upto: nat,
    rolling: string,     // the summary in hand
    folded: seq<nat>,
    savedFrom: nat,
    rollingFrom: nat,
    passed: seq<nat>)

  const Fresh := Conversation(0, "", 1, 0, 0, [], 1, "", [], 0, 0, [])

  /** The boundary in transcript terms, as the process computes it. */
  function Watermark(c: Conversation): int {
    c.offset + c.upto - 1
  }

  /** Where folding stands: behind the last record folded. */
  function Done(folded: seq<nat>): nat {
    if folded == [] then 0 else folded[|folded| - 1] + 1
  }

  /** The records a fold up to `start` takes. */
  function Pending(c: Conversation, start: nat): seq<nat> {
    if 1 <= c.upto < start <= |c.window| + 1 then c.window[c.upto - 1..start - 1] else []
  }

  /** The records whose content went into the summary in hand. */
  function Told(c: Conversation): seq<nat> {
    if Blank(c.rolling) || c.rollingFrom > |c.folded| then [] else c.folded[c.rollingFrom..]
  }

  // ---- what can happen -----------------------------------------------------------------

  /** A message is appended to the window and the transcript. */
  function Say(c: Conversation): Conversation {
    c.(records := c.records + 1, window := c.window + [c.records])
  }

  /**
    A prompt whose kept tail starts at `start`: anything newly evicted is folded into
    `summary`, which is made from the summary in hand, if there is one, and the records.
   */
  function Prompt(c: Conversation, start: nat, summary: string): Conversation {
    var pending := Pending(c, start);
    if pending == [] then c
    else
      var from := if Blank(c.rolling) then |c.folded| else c.rollingFrom;
      c.(upto := start, rolling := summary, rollingFrom := from,
         summary := summary, savedFrom := from, saved := Max(c.offset + start - 1, 1),
         folded := c.folded + pending,
         passed := c.passed + Range(Done(c.folded), Max(Done(c.folded), pending[0])))
  }

  /** Some messages are forgotten in memory; the boundary is clamped to what is left. */
  function Drop(c: Conversation, gone: set<nat>): Conversation {
    var window := Without(c.window, gone);
    c.(window := window, upto := Min(c.upto, |window| + 1))
  }

  /** A new process with a horizon of `horizon` records, filtering none of them out. */
  function Resume(c: Conversation, horizon: nat): Conversation {
    var loaded := Min(Max(0, c.records - c.floor), Max(1, horizon));
    var offset := c.records - loaded;
    c.(offset := offset, window := Range(offset, c.records),
       rolling := if Blank(c.summary) then "" else c.summary, rollingFrom := c.savedFrom,
       upto := if Blank(c.summary) then 1 else Max(1, Min(1 + Max(0, Max(c.saved, 1) - offset), 1 + loaded)))
  }

  function Clear(c: Conversation): Conversation {
    c.(floor := c.records, summary := "", saved := Max(c.records, 1), savedFrom := |c.folded|)
  }
}
