/**
  What a run leaves on disk: numbered ids, the records of each JSONL stream, and the
  files of one run directory.
 */
module RunRecords {
  import opened Basics

  // ---- ids: a prefix and a zero-padded number -----------------------------------

  function Digit(d: nat): char
    requires d < 10
  {
    (d + '0' as int) as char
  }

  function Decimal(n: nat): string {
    if n < 10 then [Digit(n)] else Decimal(n / 10) + [Digit(n % 10)]
  }

  function Zeros(n: nat): string {
    seq(n, _ => '0')
  }

  /** `f"{n:0{width}d}"`: at least `width` digits, more when the number needs them. */
  function Padded(n: nat, width: nat): string {
    var digits := Decimal(n);
    if |digits| < width then Zeros(width - |digits|) + digits else digits
  }

  function Value(s: string): int {
    if s == [] then 0 else 10 * Value(s[..|s| - 1]) + (s[|s| - 1] as int - '0' as int)
  }

  lemma {:induction false} DecimalValue(n: nat)
    ensures Value(Decimal(n)) == n
  {
    if n >= 10 {
      DecimalValue(n / 10);
      assert Decimal(n)[..|Decimal(n)| - 1] == Decimal(n / 10);
    }
  }

  lemma {:induction false} LeadingZeros(k: nat, s: string)
    ensures Value(Zeros(k) + s) == Value(s)
  {
    if s != [] {
      LeadingZeros(k, s[..|s| - 1]);
      assert (Zeros(k) + s)[..k + |s| - 1] == Zeros(k) + s[..|s| - 1];
    } else if k > 0 {
      LeadingZeros(k - 1, s);
      assert Zeros(k) + s == Zeros(k) && Zeros(k - 1) + s == Zeros(k - 1);
      assert Zeros(k)[..k - 1] == Zeros(k - 1);
    }
  }

  /** Reading the digits back gives the number, padded or not. */
  lemma PaddedValue(n: nat, width: nat)
    ensures Value(Padded(n, width)) == n
  {
    DecimalValue(n);
    LeadingZeros(if |Decimal(n)| < width then width - |Decimal(n)| else 0, Decimal(n));
  }

  predicate Digits(s: string) {
    forall c :: c in s ==> '0' <= c <= '9'
  }

  lemma {:induction false} DecimalDigits(n: nat)
    ensures Digits(Decimal(n)) && Decimal(n) != [] && (n > 0 ==> Decimal(n)[0] != '0')
  {
    if n >= 10 {
      DecimalDigits(n / 10);
    }
  }

  /** Digits only, at least `width` of them, and no idle zero in front if there are more. */
  lemma PaddedExactly(n: nat, width: nat)
    ensures Digits(Padded(n, width)) && |Padded(n, width)| >= width
    ensures |Padded(n, width)| > Max(width, 1) ==> Padded(n, width)[0] != '0'
  {
    DecimalDigits(n);
  }

  function NumberedId(prefix: string, n: nat, width: nat): string {
    prefix + "_" + Padded(n, width)
  }

  /** Two numbers never share an id, past the padding width too. */
  lemma IdsDistinct(prefix: string, m: nat, n: nat, width: nat)
    requires NumberedId(prefix, m, width) == NumberedId(prefix, n, width)
    ensures m == n
  {
    var k := |prefix| + 1;
    assert NumberedId(prefix, m, width)[k..] == Padded(m, width);
    assert NumberedId(prefix, n, width)[k..] == Padded(n, width);
    PaddedValue(m, width);
    PaddedValue(n, width);
  }

  function EventId(n: nat): string { NumberedId("evt", n, 4) }
  function DecisionId(n: nat): string { NumberedId("dec", n, 4) }
  function ToolId(n: nat): string { NumberedId("tool", n, 4) }
  function ModelId(n: nat): string { NumberedId("model", n, 4) }
  function ContextId(n: nat): string { NumberedId("context", n, 4) }
  function CommandId(n: nat): string { NumberedId("cmd", n, 3) }

  /** Ids count from zero; commands are numbered with three digits, everything else with four. */
  lemma IdsSpelledOut()
    ensures EventId(0) == "evt_0000" && DecisionId(7) == "dec_0007" && ToolId(12) == "tool_0012"
    ensures ModelId(345) == "model_0345" && ContextId(6789) == "context_6789" && CommandId(90) == "cmd_090"
  {
    assert Decimal(345) == Decimal(34) + ['5'] && Decimal(34) == ['3', '4'];
    assert Decimal(6789) == Decimal(678) + ['9'] && Decimal(678) == Decimal(67) + ['8'] && Decimal(67) == ['6', '7'];
  }

  // ---- records -------------------------------------------------------------------

  /** The event fields other code reads back; an exit code that is missing or not a number reads as 1. */
  datatype Fields = Fields(exitCode: int, verifierId: string, command: string, files: seq<string>, commandId: string)

  const NoFields := Fields(1, "", "", [], "")

  datatype Record =
    | Event(sequence: nat, id: string, kind: string, fields: Fields)
    | Decision(sequence: nat, id: string, decision: string)
    | ToolCalled(sequence: nat, id: string, tool: string, path: string)
    | ToolFinished(sequence: nat, id: string, tool: string, ok: bool)
    | ModelStarted(sequence: nat, id: string, role: string, model: string)
    | ModelClosed(sequence: nat, id: string, role: string, model: string, failed: bool)
    | ModelThinking(sequence: nat, id: string, role: string, model: string)
    | Mutation(sequence: nat, id: string, status: string)
    | Context(sequence: nat, id: string, modelCall: string)

  function Stamps(rs: seq<Record>): seq<nat> {
    seq(|rs|, i requires 0 <= i < |rs| => rs[i].sequence)
  }

  /** The highest sequence number in a stream, 0 for an empty one. */
  function MaxStamp(rs: seq<Record>): nat {
    if rs == [] then 0
    else
      var m := MaxStamp(rs[..|rs| - 1]);
      if m < rs[|rs| - 1].sequence then rs[|rs| - 1].sequence else m
  }

  function CalledIds(rs: seq<Record>): set<string> {
    set r | r in rs && r.ToolCalled? :: r.id
  }

  function FinishedIds(rs: seq<Record>): set<string> {
    set r | r in rs && r.ToolFinished? :: r.id
  }

  function StartedIds(rs: seq<Record>): set<string> {
    set r | r in rs && r.ModelStarted? :: r.id
  }

  function ClosedIds(rs: seq<Record>): set<string> {
    set r | r in rs && r.ModelClosed? :: r.id
  }

  lemma AppendIds(rs: seq<Record>, r: Record)
    ensures CalledIds(rs + [r]) == CalledIds(rs) + if r.ToolCalled? then {r.id} else {}
    ensures FinishedIds(rs + [r]) == FinishedIds(rs) + if r.ToolFinished? then {r.id} else {}
    ensures StartedIds(rs + [r]) == StartedIds(rs) + if r.ModelStarted? then {r.id} else {}
    ensures ClosedIds(rs + [r]) == ClosedIds(rs) + if r.ModelClosed? then {r.id} else {}
  {
    assert forall t :: t in rs + [r] <==> t in rs || t == r;
  }

  /** The records of one kind that open something: tool calls, or model starts. */
  function Openings(rs: seq<Record>): seq<Record> {
    if rs == [] then []
    else
      var last := rs[|rs| - 1];
      Openings(rs[..|rs| - 1]) + if last.ToolCalled? || last.ModelStarted? then [last] else []
  }

  lemma OpeningsAppend(rs: seq<Record>, r: Record)
    ensures Openings(rs + [r]) == Openings(rs) + if r.ToolCalled? || r.ModelStarted? then [r] else []
  {
    assert (rs + [r])[..|rs|] == rs;
  }

  lemma {:induction false} OpeningsMembers(rs: seq<Record>)
    ensures forall r :: r in Openings(rs) <==> r in rs && (r.ToolCalled? || r.ModelStarted?)
  {
    if rs != [] {
      OpeningsMembers(rs[..|rs| - 1]);
      assert rs == rs[..|rs| - 1] + [rs[|rs| - 1]];
    }
  }

  lemma {:induction false} MaxStampBounds(rs: seq<Record>)
    ensures forall r :: r in rs ==> r.sequence <= MaxStamp(rs)
    ensures rs != [] ==> exists r :: r in rs && r.sequence == MaxStamp(rs)
  {
    if rs != [] {
      MaxStampBounds(rs[..|rs| - 1]);
      assert rs == rs[..|rs| - 1] + [rs[|rs| - 1]];
      assert rs[|rs| - 1] in rs;
      if rs[..|rs| - 1] == [] {
        assert MaxStamp(rs) == rs[|rs| - 1].sequence;
      }
    }
  }

  // ---- files -----------------------------------------------------------------------

  datatype Summary = Summary(status: string, events: nat, decisions: nat, toolCalls: nat, modelCalls: nat)

  /**
    One run directory: five JSONL streams, the numbered context files and the latest
    context preview, the manifest's status, the summary, the final output, and which
    commands had their output kept.
   */
  datatype RunFiles = RunFiles(
    events: seq<Record>,
    decisions: seq<Record>,
    tools: seq<Record>,
    models: seq<Record>,
    mutations: seq<Record>,
    contexts: seq<Record>,
    preview: Option<Record>,
    status: Option<string>,
    summary: Option<Summary>,
    finalOutput: Option<string>,
    keptCommands: set<string>)

  const NoFiles := RunFiles([], [], [], [], [], [], None, None, None, None, {})

  /** The highest sequence number in the JSONL streams.  Context files are not looked at. */
  function MaxSequence(f: RunFiles): nat {
    Max(MaxStamp(f.events),
        Max(MaxStamp(f.decisions), Max(MaxStamp(f.tools), Max(MaxStamp(f.models), MaxStamp(f.mutations)))))
  }

  /** The context records a reader sees: the numbered files, or else the latest preview. */
  function ContextGroup(f: RunFiles): seq<Record> {
    if f.contexts != [] then f.contexts
    else if f.preview.Some? then [f.preview.value]
    else []
  }

  const TERMINAL: set<string> := {
    "success", "success_unverified", "partial", "failed", "denied",
    "needs_input", "cancelled", "timed_out", "dry_run"
  }
}
