/**
 What an agent run emits, the grammar every run's trace follows, and what the agent's own state makes
 of it. The agent reduces the same events that listeners see, so its state is a function of the trace.
 A model may start its message again inside itself, which the loop passes on; the grammar admits these
 restarts and counts them.
 */
module AgentTrace {
  import opened Wrappers

  /** How a user message reached the run: as a prompt, or through one of the two queues. */
  datatype Origin = Typed | Steering | FollowUp

  datatype StopReason = Stop | Length | ToolUse | Error | Aborted

  datatype ToolCall = ToolCall(id: string, name: string)

  datatype Message =
    | User(origin: Origin, content: nat)
    | Assistant(content: nat, calls: seq<ToolCall>, stop: StopReason)
    | ToolResult(callId: string, content: nat, isError: bool)

  /** What a tool call comes to; its result may ask that the run stops. */
  datatype Outcome = Outcome(content: nat, isError: bool, terminate: bool)

  datatype Event =
    | AgentStart
    | TurnStart
    | MessageStart(message: Message)
    | MessageUpdate(message: Message)
    | MessageEnd(message: Message)
    | ToolStart(id: string)
    | ToolUpdate(id: string)
    | ToolEnd(id: string, outcome: Outcome)
    | TurnEnd(message: Message, results: seq<Message>)
    | AgentEnd(messages: seq<Message>)

  // ---------------------------------------------------------------------------
  // The grammar
  // ---------------------------------------------------------------------------

  datatype Phase =
    | Before
    | BetweenTurns
    | InTurn(running: multiset<string>)    // tool executions that have started and not ended
    | InMessage(assistant: bool)
    | After

  function Step(phase: Phase, e: Event): Option<Phase> {
    match phase
    case Before => if e.AgentStart? then Some(BetweenTurns) else None
    case BetweenTurns =>
      if e.TurnStart? then Some(InTurn(multiset{})) else if e.AgentEnd? then Some(After) else None
    case InTurn(running) => (
      match e
      case MessageStart(m) => if running == multiset{} then Some(InMessage(m.Assistant?)) else None
      case ToolStart(id) => Some(InTurn(running + multiset{id}))
      case ToolUpdate(id) => if id in running then Some(phase) else None
      case ToolEnd(id, _) => if id in running then Some(InTurn(running - multiset{id})) else None
      case TurnEnd(m, _) => if running == multiset{} && m.Assistant? then Some(BetweenTurns) else None
      case _ => None)
    case InMessage(assistant) => (
      match e
      case MessageStart(m) => if assistant && m.Assistant? then Some(phase) else None
      case MessageUpdate(m) => if assistant && m.Assistant? then Some(phase) else None
      case MessageEnd(m) => if m.Assistant? == assistant then Some(InTurn(multiset{})) else None
      case _ => None)
    case After => None
  }

  /** The phase a trace leads to, if it follows the grammar. */
  function Scan(trace: seq<Event>): Option<Phase> {
    if trace == [] then Some(Before)
    else
      var before := Scan(trace[..|trace| - 1]);
      if before.Some? then Step(before.value, trace[|trace| - 1]) else None
  }

  /** How often a message has started inside a message. */
  function Restarts(trace: seq<Event>): nat {
    if trace == [] then 0
    else
      var front := trace[..|trace| - 1];
      Restarts(front) + if trace[|trace| - 1].MessageStart? && Scan(front).Some? && Scan(front).value.InMessage? then 1
        else 0
  }

  // ---------------------------------------------------------------------------
  // What a trace says
  // ---------------------------------------------------------------------------

  /** The messages that have ended. */
  function Payloads(trace: seq<Event>): seq<Message> {
    if trace == [] then []
    else
      var e := trace[|trace| - 1];
      Payloads(trace[..|trace| - 1]) + if e.MessageEnd? then [e.message] else []
  }

  predicate From(m: Message, origin: Origin) { m.User? && m.origin == origin }

  /** The messages of one origin among `messages`, in order. */
  function OfOrigin(messages: seq<Message>, origin: Origin): seq<Message> {
    if messages == [] then []
    else
      var m := messages[|messages| - 1];
      OfOrigin(messages[..|messages| - 1], origin) + if From(m, origin) then [m] else []
  }

  /** How many messages of one origin have ended since the last turn began. */
  function InThisTurn(trace: seq<Event>, origin: Origin): nat {
    if trace == [] then 0
    else
      var e := trace[|trace| - 1];
      if e.TurnStart? then 0
      else InThisTurn(trace[..|trace| - 1], origin) + if e.MessageEnd? && From(e.message, origin) then 1 else 0
  }

  /** No turn has injected more than one message of the origin. */
  predicate OnePerTurn(trace: seq<Event>, origin: Origin) {
    trace == [] || (OnePerTurn(trace[..|trace| - 1], origin) && InThisTurn(trace, origin) <= 1)
  }

  /** No turn has injected queued messages of both kinds. */
  predicate NeverBoth(trace: seq<Event>) {
    trace == [] || (NeverBoth(trace[..|trace| - 1])
        && (InThisTurn(trace, Steering) == 0 || InThisTurn(trace, FollowUp) == 0))
  }

  // ---------------------------------------------------------------------------
  // The loop's context
  // ---------------------------------------------------------------------------

  /** The contexts that prepareNextTurn returns, by the messages that the run has ended when it is asked. */
  type Preparation = map<seq<Message>, seq<Message>>

  /** What prepareNextTurn returns before a turn; it is not asked before the first one. */
  function Answer(preparation: Preparation, ended: seq<Message>): Option<seq<Message>> {
    if ended != [] && ended in preparation then Some(preparation[ended]) else None
  }

  /** The latest message of a context changes. */
  function Latest(context: seq<Message>, m: Message): seq<Message> {
    if context == [] then [m] else context[|context| - 1 := m]
  }

  /** What an event means for the loop's context. */
  function Collect(context: seq<Message>, e: Event, ended: seq<Message>, preparation: Preparation): seq<Message> {
    match e
    case MessageStart(m) => context + [m]
    case MessageUpdate(m) => Latest(context, m)
    case MessageEnd(m) => Latest(context, m)
    case TurnStart => if Answer(preparation, ended).Some? then Answer(preparation, ended).value else context
    case _ => context
  }

  /** The context that a run which started from `base` has reached. */
  function LoopContext(base: seq<Message>, preparation: Preparation, trace: seq<Event>): seq<Message> {
    if trace == [] then base
    else
      var front := trace[..|trace| - 1];
      Collect(LoopContext(base, preparation, front), trace[|trace| - 1], Payloads(front), preparation)
  }

  // ---------------------------------------------------------------------------
  // Why a run goes on, and why it ends
  // ---------------------------------------------------------------------------

  datatype ToolExecution = Sequential | Parallel

  /**
   What a run is configured with: its hooks (shouldStopAfterTurn asks to stop after the turns at which
   the run has ended one of these lists of messages), and how tools are executed.
   */
  datatype Config = Config(
    prepareNextTurn: Preparation, shouldStopAfterTurn: set<seq<Message>>, toolExecution: ToolExecution,
    sequentialTools: set<string>)

  /** Whether the model ended its response with an error or an abort. */
  predicate Failed(message: Message) { message.Assistant? && (message.stop.Error? || message.stop.Aborted?) }

  /** A tool call of the current turn has ended without asking to stop. */
  predicate GoesOn(trace: seq<Event>) {
    trace != [] &&
    var e := trace[|trace| - 1];
    !e.TurnStart? && (GoesOn(trace[..|trace| - 1]) || (e.ToolEnd? && !e.outcome.terminate))
  }

  /** The message of the turn completed last. */
  function LastTurn(trace: seq<Event>): Option<Message> {
    if trace == [] then None
    else if trace[|trace| - 1].TurnEnd? then Some(trace[|trace| - 1].message)
    else LastTurn(trace[..|trace| - 1])
  }

  /** The current turn is the first one, or follows one with tool results for the model. */
  predicate Wanted(trace: seq<Event>) {
    trace != [] &&
    var front := trace[..|trace| - 1];
    if trace[|trace| - 1].TurnStart? then LastTurn(front).None? || GoesOn(front) else Wanted(front)
  }

  /** The turn completed last was one to stop after: the model failed, or the hook asked for it. */
  predicate Stopped(last: Option<Message>, ended: seq<Message>, stops: set<seq<Message>>) {
    last.Some? && (Failed(last.value) || ended in stops)
  }

  /**
   An event has its reason. No turn begins after one to stop after; a run whose last turn has tool results
   for the model ends only after such a turn; and every turn but the first has tool results to answer or
   has injected a queued message. The end of a turn carries its response and tool results, that of the run
   all its messages.
   */
  predicate HasReason(front: seq<Event>, e: Event, stops: set<seq<Message>>) {
    && (e.TurnStart? ==> !Stopped(LastTurn(front), Payloads(front), stops))
    && (e.AgentEnd? && GoesOn(front) ==> Stopped(LastTurn(front), Payloads(front), stops))
    && (e.TurnEnd? ==>
          && (Wanted(front) || InThisTurn(front, Steering) > 0 || InThisTurn(front, FollowUp) > 0)
          && EndsWith(Payloads(front), [e.message] + e.results))
    && (e.AgentEnd? ==> e.messages == Payloads(front))
  }

  predicate EndsWith(messages: seq<Message>, last: seq<Message>) {
    |last| <= |messages| && messages[|messages| - |last|..] == last
  }

  predicate Reasoned(trace: seq<Event>, stops: set<seq<Message>>) {
    trace == [] ||
    (Reasoned(trace[..|trace| - 1], stops) && HasReason(trace[..|trace| - 1], trace[|trace| - 1], stops))
  }

  /** How often a tool call has started while another one was running. */
  function Overlaps(trace: seq<Event>): nat {
    if trace == [] then 0
    else
      var front := trace[..|trace| - 1];
      Overlaps(front) + if trace[|trace| - 1].ToolStart? && Scan(front).Some? && Busy(Scan(front).value) then 1 else 0
  }

  predicate Busy(phase: Phase) { phase.InTurn? && phase.running != multiset{} }

  datatype Flow = Flow(goesOn: bool, lastTurn: Option<Message>, wanted: bool, reasoned: bool, overlaps: nat)

  /** All of this in one value. */
  datatype Summary = Summary(phase: Phase, payloads: seq<Message>, steered: nat, followed: nat,
                             oneSteered: bool, oneFollowed: bool, neverBoth: bool, restarts: nat,
                             context: seq<Message>, flow: Flow, config: Config)

  function Summarize(base: seq<Message>, config: Config, trace: seq<Event>): (s: Summary)
    requires Scan(trace).Some?
    ensures (s.oneSteered ==> s.steered <= 1) && (s.oneFollowed ==> s.followed <= 1)
    ensures s.neverBoth ==> s.steered == 0 || s.followed == 0
  {
    Summary(Scan(trace).value, Payloads(trace), InThisTurn(trace, Steering), InThisTurn(trace, FollowUp),
            OnePerTurn(trace, Steering), OnePerTurn(trace, FollowUp), NeverBoth(trace), Restarts(trace),
            LoopContext(base, config.prepareNextTurn, trace), Flows(trace, config), config)
  }

  function Flows(trace: seq<Event>, config: Config): Flow {
    Flow(GoesOn(trace), LastTurn(trace), Wanted(trace), Reasoned(trace, config.shouldStopAfterTurn), Overlaps(trace))
  }

  /** What an event does to the flow of turns. */
  function Carry(s: Summary, e: Event): Flow {
    var stopped := Stopped(s.flow.lastTurn, s.payloads, s.config.shouldStopAfterTurn);
    match e
    case TurnStart =>
      s.flow.(goesOn := false, wanted := s.flow.lastTurn.None? || s.flow.goesOn,
              reasoned := s.flow.reasoned && !stopped)
    case TurnEnd(m, results) =>
      s.flow.(lastTurn := Some(m),
              reasoned := s.flow.reasoned && (s.flow.wanted || s.steered > 0 || s.followed > 0)
                          && EndsWith(s.payloads, [m] + results))
    case AgentEnd(messages) =>
      s.flow.(reasoned := s.flow.reasoned && (s.flow.goesOn ==> stopped) && messages == s.payloads)
    case ToolStart(_) => s.flow.(overlaps := s.flow.overlaps + if Busy(s.phase) then 1 else 0)
    case ToolEnd(_, outcome) => s.flow.(goesOn := s.flow.goesOn || !outcome.terminate)
    case _ => s.flow
  }

  function Added(e: Event, origin: Origin): nat { if e.MessageEnd? && From(e.message, origin) then 1 else 0 }

  function Advance(s: Summary, e: Event): Summary
    requires Step(s.phase, e).Some?
  {
    var steered := if e.TurnStart? then 0 else s.steered + Added(e, Steering);
    var followed := if e.TurnStart? then 0 else s.followed + Added(e, FollowUp);
    Summary(Step(s.phase, e).value, s.payloads + (if e.MessageEnd? then [e.message] else []), steered, followed,
            s.oneSteered && steered <= 1, s.oneFollowed && followed <= 1, s.neverBoth
                && (steered == 0 || followed == 0),
            s.restarts + (if e.MessageStart? && s.phase.InMessage? then 1 else 0),
            Collect(s.context, e, s.payloads, s.config.prepareNextTurn), Carry(s, e), s.config)
  }

  /** One event more. */
  lemma Snoc(base: seq<Message>, config: Config, trace: seq<Event>, e: Event)
    requires Scan(trace).Some? && Step(Scan(trace).value, e).Some?
    ensures Scan(trace + [e]).Some?
    ensures Summarize(base, config, trace + [e]) == Advance(Summarize(base, config, trace), e)
    ensures forall s :: Reduce(s, trace + [e]) == Process(Reduce(s, trace), e)
  {
    assert (trace + [e])[..|trace|] == trace;
    FlowsOn(base, config, trace, e);
    hide Carry, Flows;
  }

  lemma FlowsOn(base: seq<Message>, config: Config, trace: seq<Event>, e: Event)
    requires Scan(trace).Some? && Step(Scan(trace).value, e).Some?
    ensures Flows(trace + [e], config) == Carry(Summarize(base, config, trace), e)
  {
    assert (trace + [e])[..|trace|] == trace;
    hide Step, Scan, Payloads, InThisTurn, OnePerTurn, NeverBoth, Restarts, LoopContext;
  }

  lemma OfOriginAppend(messages: seq<Message>, m: Message, origin: Origin)
    ensures OfOrigin(messages + [m], origin) == OfOrigin(messages, origin) + if From(m, origin) then [m] else []
  {
    assert (messages + [m])[..|messages|] == messages;
  }

  // ---------------------------------------------------------------------------
  // The agent's state
  // ---------------------------------------------------------------------------

  datatype AgentState = AgentState(messages: seq<Message>, streaming: Option<Message>, pendingToolCalls: set<string>)

  /** Agent.processEvents. */
  function Process(s: AgentState, e: Event): AgentState {
    match e
    case MessageStart(m) => s.(streaming := Some(m))
    case MessageUpdate(m) => s.(streaming := Some(m))
    case MessageEnd(m) => s.(streaming := None, messages := s.messages + [m])
    case ToolStart(id) => s.(pendingToolCalls := s.pendingToolCalls + {id})
    case ToolEnd(id, _) => s.(pendingToolCalls := s.pendingToolCalls - {id})
    case AgentEnd(_) => s.(streaming := None)
    case _ => s
  }

  function Reduce(s: AgentState, trace: seq<Event>): AgentState {
    if trace == [] then s else Process(Reduce(s, trace[..|trace| - 1]), trace[|trace| - 1])
  }

  /** The agent's transcript grows by exactly the messages that ended. */
  lemma {:induction false} TranscriptIsPayloads(s: AgentState, trace: seq<Event>)
    ensures Reduce(s, trace).messages == s.messages + Payloads(trace)
  {
    if trace != [] {
      TranscriptIsPayloads(s, trace[..|trace| - 1]);
    }
  }

  /** A call shown as pending is running, and a message is shown as streaming only while it streams. */
  ghost predicate Shows(s: AgentState, phase: Phase) {
    && (forall id :: id in s.pendingToolCalls ==> phase.InTurn? && id in phase.running)
    && (s.streaming.Some? <==> phase.InMessage?)
  }

  lemma StepShows(s: AgentState, phase: Phase, e: Event)
    requires Shows(s, phase) && Step(phase, e).Some?
    ensures Shows(Process(s, e), Step(phase, e).value)
  {
  }

  lemma {:induction false} StateShowsPhase(s: AgentState, trace: seq<Event>)
    requires s.pendingToolCalls == {} && s.streaming == None && Scan(trace).Some?
    ensures Shows(Reduce(s, trace), Scan(trace).value)
  {
    if trace != [] {
      StateShowsPhase(s, trace[..|trace| - 1]);
      StepShows(Reduce(s, trace[..|trace| - 1]), Scan(trace[..|trace| - 1]).value, trace[|trace| - 1]);
      hide Shows, Process, Step;
    }
  }

  /** The last event about a call is its start. */
  predicate LastStarted(trace: seq<Event>, id: string) {
    trace != [] &&
    var e := trace[|trace| - 1];
    e == ToolStart(id) || (!(e.ToolEnd? && e.id == id) && LastStarted(trace[..|trace| - 1], id))
  }

  /** For any events, a call is shown as pending exactly if it has started, and not ended since. */
  lemma {:induction false} PendingExactly(s: AgentState, trace: seq<Event>, id: string)
    requires s.pendingToolCalls == {}
    ensures id in Reduce(s, trace).pendingToolCalls <==> LastStarted(trace, id)
  {
    if trace != [] { PendingExactly(s, trace[..|trace| - 1], id); }
  }

  /** While a message streams the agent shows it as it is: as its last event has it. */
  lemma StreamingIsLatest(s: AgentState, trace: seq<Event>)
    requires Scan(trace).Some? && Scan(trace).value.InMessage?
    ensures trace != [] && (trace[|trace| - 1].MessageStart? || trace[|trace| - 1].MessageUpdate?)
    ensures Reduce(s, trace).streaming == Some(trace[|trace| - 1].message)
  {
  }

  lemma {:induction false} ScanPrefix(trace: seq<Event>, k: nat)
    requires Scan(trace).Some? && k <= |trace|
    ensures Scan(trace[..k]).Some?
    ensures k < |trace| ==> Step(Scan(trace[..k]).value, trace[k]).Some?
  {
    if k < |trace| {
      var front := trace[..|trace| - 1];
      if k == |front| {
        assert trace[..k] == front;
      } else {
        ScanPrefix(front, k);
        assert front[..k] == trace[..k];
      }
    } else {
      assert trace[..k] == trace;
    }
  }

  /** Nothing is pending or streaming at any turn_end or agent_end. */
  lemma NothingPendingAtTurnEnd(s: AgentState, trace: seq<Event>, k: nat)
    requires s.pendingToolCalls == {} && s.streaming == None && Scan(trace).Some?
    requires k < |trace| && (trace[k].TurnEnd? || trace[k].AgentEnd?)
    ensures Reduce(s, trace[..k]).pendingToolCalls == {} && Reduce(s, trace[..k]).streaming == None
  {
    ScanPrefix(trace, k);
    StateShowsPhase(s, trace[..k]);
    QuietPhase(Scan(trace[..k]).value, trace[k]);
    hide Scan, Reduce, Step;
  }

  lemma QuietPhase(phase: Phase, e: Event)
    requires Step(phase, e).Some? && (e.TurnEnd? || e.AgentEnd?)
    ensures phase.BetweenTurns? || phase == InTurn(multiset{})
  {
  }

  // ---------------------------------------------------------------------------
  // What the grammar means
  // ---------------------------------------------------------------------------

  datatype Kind =
    | AgentStarts
    | AgentEnds
    | TurnStarts
    | TurnEnds
    | MessageStarts
    | MessageEnds
    | Starts(id: string)
    | Ends(id: string)

  predicate Is(e: Event, kind: Kind) {
    match kind
    case AgentStarts => e.AgentStart?
    case AgentEnds => e.AgentEnd?
    case TurnStarts => e.TurnStart?
    case TurnEnds => e.TurnEnd?
    case MessageStarts => e.MessageStart?
    case MessageEnds => e.MessageEnd?
    case Starts(id) => e == ToolStart(id)
    case Ends(id) => e.ToolEnd? && e.id == id
  }

  function Count(trace: seq<Event>, kind: Kind): nat {
    if trace == [] then 0 else Count(trace[..|trace| - 1], kind) + if Is(trace[|trace| - 1], kind) then 1 else 0
  }

  /** How many executions of a call are running. */
  function Running(phase: Phase, id: string): nat { if phase.InTurn? then phase.running[id] else 0 }

  function OpenTurns(phase: Phase): nat { if phase.InTurn? || phase.InMessage? then 1 else 0 }

  function OpenMessages(phase: Phase): nat { if phase.InMessage? then 1 else 0 }

  /**
   Turns are balanced and never nested, a run starts and ends once, and messages are balanced but for
   those that start inside a message.
   */
  lemma {:induction false} Balanced(trace: seq<Event>)
    requires Scan(trace).Some?
    ensures var phase := Scan(trace).value;
            && Count(trace, AgentStarts) == (if phase.Before? then 0 else 1)
            && Count(trace, AgentEnds) == (if phase.After? then 1 else 0)
            && Count(trace, TurnStarts) == Count(trace, TurnEnds) + OpenTurns(phase)
            && Count(trace, MessageStarts) == Count(trace, MessageEnds) + OpenMessages(phase) + Restarts(trace)
  {
    if trace != [] {
      var front, e := trace[..|trace| - 1], trace[|trace| - 1];
      Balanced(front);
      forall kind ensures Count(trace, kind) == Count(front, kind) + if Is(e, kind) then 1 else 0 { }
      StepBalances(Scan(front).value, e);
      hide Step, Scan, Count, Is, OpenTurns, OpenMessages;
    }
  }

  lemma StepBalances(phase: Phase, e: Event)
    requires Step(phase, e).Some?
    ensures var phase' := Step(phase, e).value;
            && Is(e, AgentStarts) == (phase.Before? && !phase'.Before?) && !phase'.Before?
            && Is(e, AgentEnds) == phase'.After? && !phase.After?
            && OpenTurns(phase') + (if Is(e, TurnEnds) then 1 else 0) == OpenTurns(phase)
               + (if Is(e, TurnStarts) then 1 else 0)
            && OpenMessages(phase') + (if Is(e, MessageEnds) then 1 else 0)
               == OpenMessages(phase) + (if Is(e, MessageStarts) && !phase.InMessage? then 1 else 0)
  {
  }

  /** Per call id, executions have ended as often as they started, but for those still running. */
  lemma {:induction false} ExecutionsBalanced(trace: seq<Event>, id: string)
    requires Scan(trace).Some?
    ensures Count(trace, Starts(id)) == Count(trace, Ends(id)) + Running(Scan(trace).value, id)
  {
    if trace != [] {
      var front, e := trace[..|trace| - 1], trace[|trace| - 1];
      ExecutionsBalanced(front, id);
      StepRuns(Scan(front).value, e, id);
      hide Step, Is, Running;
    }
  }

  lemma StepRuns(phase: Phase, e: Event, id: string)
    requires Step(phase, e).Some?
    ensures Running(Step(phase, e).value, id) + (if Is(e, Ends(id)) then 1 else 0)
            == Running(phase, id) + (if Is(e, Starts(id)) then 1 else 0)
  {
  }

  /** A complete trace starts with agent_start and ends with its only agent_end, with nothing left open. */
  lemma CompleteTrace(trace: seq<Event>, id: string)
    requires Scan(trace) == Some(After)
    ensures |trace| >= 2 && trace[0].AgentStart? && trace[|trace| - 1].AgentEnd?
    ensures Count(trace, AgentStarts) == 1 && Count(trace, AgentEnds) == 1
    ensures Count(trace, TurnStarts) == Count(trace, TurnEnds)
    ensures Count(trace, MessageStarts) == Count(trace, MessageEnds) + Restarts(trace)
    ensures Count(trace, Starts(id)) == Count(trace, Ends(id))
  {
    Balanced(trace);
    ExecutionsBalanced(trace, id);
    ScanPrefix(trace, 0);
    var front := trace[..|trace| - 1];
    assert Scan(front).value.BetweenTurns?;
    assert trace[..0] == [];
  }

  /**
   What follows a turn. After one to stop after, the run ends at once. After any other with a tool result
   that did not ask to stop, the next turn begins.
   */
  lemma AfterTurn(trace: seq<Event>, stops: set<seq<Message>>, k: nat)
    requires Scan(trace).Some? && Reasoned(trace, stops) && k + 1 < |trace| && trace[k].TurnEnd?
    ensures trace[k + 1].AgentEnd? || trace[k + 1].TurnStart?
    ensures var stop := Failed(trace[k].message) || Payloads(trace[..k + 1]) in stops;
            && (stop ==> trace[k + 1].AgentEnd?)
            && (!stop && GoesOn(trace[..k + 1]) ==> trace[k + 1].TurnStart?)
  {
    ScanPrefix(trace, k);
    ScanPrefix(trace, k + 1);
    ReasonedPrefix(trace, stops, k + 2);
    var before, after := trace[..k + 1], trace[..k + 2];
    assert before[..k] == trace[..k] && after[..k + 1] == before && before[k] == trace[k]
           && after[k + 1] == trace[k + 1];
    hide Payloads, GoesOn;
  }

  /** A turn that follows one without tool results for the model has injected a queued message when it ends. */
  lemma WhyTurns(trace: seq<Event>, stops: set<seq<Message>>, k: nat)
    requires Reasoned(trace, stops) && k < |trace| && trace[k].TurnEnd? && !Wanted(trace[..k])
    ensures InThisTurn(trace[..k], Steering) > 0 || InThisTurn(trace[..k], FollowUp) > 0
  {
    ReasonedPrefix(trace, stops, k + 1);
    assert trace[..k + 1][..k] == trace[..k];
    hide Wanted, InThisTurn;
  }

  lemma {:induction false} ReasonedPrefix(trace: seq<Event>, stops: set<seq<Message>>, k: nat)
    requires Reasoned(trace, stops) && k <= |trace|
    ensures Reasoned(trace[..k], stops)
  {
    if k < |trace| {
      var front := trace[..|trace| - 1];
      ReasonedPrefix(front, stops, k);
      assert front[..k] == trace[..k];
    } else {
      assert trace[..k] == trace;
    }
  }

  /** Where a context was last replaced, and how many messages had ended and started again by then. */
  datatype Base = Base(context: seq<Message>, mark: nat, restarts: nat)

  function LastReplaced(base: seq<Message>, preparation: Preparation, trace: seq<Event>): Base {
    if trace == [] then Base(base, 0, 0)
    else
      var front := trace[..|trace| - 1];
      var answer := if trace[|trace| - 1].TurnStart? then Answer(preparation, Payloads(front)) else None;
      if answer.Some? then Base(answer.value, |Payloads(front)|, Restarts(front))
      else LastReplaced(base, preparation, front)
  }

  /** No turn of the run has replaced the context. */
  ghost predicate NeverReplaced(preparation: Preparation, trace: seq<Event>) {
    forall k :: 0 <= k < |trace| && trace[k].TurnStart? ==> Answer(preparation, Payloads(trace[..k])) == None
  }

  lemma {:induction false} StillTheFirst(base: seq<Message>, preparation: Preparation, trace: seq<Event>)
    requires NeverReplaced(preparation, trace)
    ensures LastReplaced(base, preparation, trace) == Base(base, 0, 0)
  {
    if trace != [] {
      var front := trace[..|trace| - 1];
      forall k | 0 <= k < |front| && front[k].TurnStart? ensures Answer(preparation, Payloads(front[..k])) == None {
        assert front[..k] == trace[..k] && trace[k] == front[k];
      }
      StillTheFirst(base, preparation, front);
    }
  }

  /** A context without the message that is being streamed into it. */
  ghost predicate Holds(context: seq<Message>, streaming: bool, b: Base, ended: seq<Message>, restarts: nat) {
    && b.mark <= |ended| && b.restarts <= restarts && (streaming ==> context != [])
    && var settled := if streaming then context[..|context| - 1] else context;
       && |settled| + b.restarts == |b.context| + |ended| - b.mark + restarts
       && (restarts == b.restarts ==> settled == b.context + ended[b.mark..])
  }

  lemma {:induction false} ContextHolds(base: seq<Message>, preparation: Preparation, trace: seq<Event>)
    requires Scan(trace).Some?
    ensures Holds(LoopContext(base, preparation, trace), Scan(trace).value.InMessage?,
                  LastReplaced(base, preparation, trace), Payloads(trace), Restarts(trace))
  {
    if trace != [] {
      var front, e := trace[..|trace| - 1], trace[|trace| - 1];
      ContextHolds(base, preparation, front);
      if e.TurnStart? && Answer(preparation, Payloads(front)).Some? {
        assert Payloads(front)[|Payloads(front)|..] == [];
      } else {
        StepHolds(LoopContext(base, preparation, front), Scan(front).value, LastReplaced(base, preparation, front),
                  Payloads(front), Restarts(front), e);
      }
    }
  }

  lemma StepHolds(context: seq<Message>, phase: Phase, b: Base, ended: seq<Message>, restarts: nat, e: Event)
    requires Holds(context, phase.InMessage?, b, ended, restarts) && Step(phase, e).Some?
    ensures Holds(Collect(context, e, ended, map[]), Step(phase, e).value.InMessage?, b,
                  ended + (if e.MessageEnd? then [e.message] else []),
                  restarts + if e.MessageStart? && phase.InMessage? then 1 else 0)
  {
    if e.MessageEnd? {
      assert (ended + [e.message])[b.mark..] == ended[b.mark..] + [e.message];
      assert b.context + (ended[b.mark..] + [e.message]) == (b.context + ended[b.mark..]) + [e.message];
      assert Latest(context, e.message) == context[..|context| - 1] + [e.message];
    } else {
      assert ended + [] == ended;
    }
  }

  /**
   The loop's context is what it was last replaced by and all messages that have ended since, exactly if
   no message has started again since; each that has leaves one message more behind. If no turn has
   replaced it, it is the transcript that the run started from and all messages of the run.
   */
  lemma ContextIsTranscript(base: seq<Message>, preparation: Preparation, trace: seq<Event>)
    requires Scan(trace).Some? && !Scan(trace).value.InMessage?
    ensures var context, b := LoopContext(base, preparation, trace), LastReplaced(base, preparation, trace);
            && b.mark <= |Payloads(trace)| && b.restarts <= Restarts(trace)
            && |context| == |b.context| + |Payloads(trace)| - b.mark + Restarts(trace) - b.restarts
            && (context == b.context + Payloads(trace)[b.mark..] <==> Restarts(trace) == b.restarts)
    ensures NeverReplaced(preparation, trace) ==>
              (LoopContext(base, preparation, trace) == base + Payloads(trace) <==> Restarts(trace) == 0)
  {
    ContextHolds(base, preparation, trace);
    if NeverReplaced(preparation, trace) { StillTheFirst(base, preparation, trace); }
    hide LoopContext, LastReplaced, Payloads, Restarts, Scan, NeverReplaced;
  }

  /** What handleRunFailure emits when something throws out of the loop. */
  function FailureEvents(failure: Message): seq<Event> {
    [MessageStart(failure), MessageEnd(failure), TurnEnd(failure, []), AgentEnd([failure])]
  }

  /**
   A run that fails gains the failure message and shows nothing as streaming, wherever it stood; its
   trace is complete exactly if it failed inside a turn with no tool running and no user or tool message open.
   */
  lemma FailureEnds(s: AgentState, trace: seq<Event>, failure: Message)
    requires Scan(trace).Some? && failure.Assistant?
    ensures var trace' := trace + FailureEvents(failure);
            && Reduce(s, trace').messages == Reduce(s, trace).messages + [failure]
               && Reduce(s, trace').streaming == None
            && (Scan(trace') == Some(After) <==>
               Scan(trace).value == InTurn(multiset{}) || Scan(trace).value == InMessage(true))
            && (Scan(trace').Some? ==> Scan(trace') == Some(After))
  {
    var t1 := trace + [MessageStart(failure)];
    var t2 := t1 + [MessageEnd(failure)];
    var t3 := t2 + [TurnEnd(failure, [])];
    EventAdds(s, trace, MessageStart(failure));
    EventAdds(s, t1, MessageEnd(failure));
    EventAdds(s, t2, TurnEnd(failure, []));
    EventAdds(s, t3, AgentEnd([failure]));
    assert t3 + [AgentEnd([failure])] == trace + FailureEvents(failure);
    hide Scan, Reduce;
  }

  lemma EventAdds(s: AgentState, trace: seq<Event>, e: Event)
    ensures Scan(trace + [e]) == if Scan(trace).Some? then Step(Scan(trace).value, e) else None
    ensures Reduce(s, trace + [e]) == Process(Reduce(s, trace), e)
  {
    assert (trace + [e])[..|trace|] == trace;
  }

  /** The grammar allows what one-at-a-time modes do not rule out: a turn with one message of either queue. */
  lemma SharedTurn(followed: Message, steered: Message, answer: Message)
    requires From(followed, FollowUp) && From(steered, Steering) && answer.Assistant?
    ensures var trace := [AgentStart, TurnStart, MessageStart(followed), MessageEnd(followed), MessageStart(steered),
                          MessageEnd(steered), MessageStart(answer), MessageEnd(answer), TurnEnd(answer, []),
                          AgentEnd([followed, steered, answer])];
            && Scan(trace) == Some(After) && Payloads(trace) == [followed, steered, answer]
            && OnePerTurn(trace, Steering) && OnePerTurn(trace, FollowUp) && !NeverBoth(trace)
  {
    var trace, s := SharedStart(followed, steered);
    ReadSummary([], NO_CONFIG, trace);
    hide Scan, Payloads, InThisTurn, OnePerTurn, NeverBoth, Restarts, Summarize, Reduce, LoopContext, Collect, Carry;
    trace, s := One(trace, s, MessageStart(answer));
    trace, s := One(trace, s, MessageEnd(answer));
    trace, s := One(trace, s, TurnEnd(answer, []));
    trace, s := One(trace, s, AgentEnd([followed, steered, answer]));
    ReadSummary([], NO_CONFIG, trace);
    assert trace == [AgentStart, TurnStart, MessageStart(followed), MessageEnd(followed), MessageStart(steered),
           MessageEnd(steered),
                     MessageStart(answer), MessageEnd(answer), TurnEnd(answer, []),
                         AgentEnd([followed, steered, answer])];
  }

  const NO_CONFIG := Config(map[], {}, Parallel, {})

  /** The flow of turns before a run. */
  const START := Flow(false, None, false, true, 0)

  lemma SharedStart(followed: Message, steered: Message) returns (trace: seq<Event>, s: Summary)
    requires From(followed, FollowUp) && From(steered, Steering)
    ensures trace == [AgentStart, TurnStart, MessageStart(followed), MessageEnd(followed), MessageStart(steered),
            MessageEnd(steered)]
    ensures s == Summary(InTurn(multiset{}), [followed, steered], 1, 1, true, true, false, 0, s.context, s.flow,
            NO_CONFIG)
    ensures Scan(trace).Some? && Summarize([], NO_CONFIG, trace) == s
  {
    hide Scan, Payloads, InThisTurn, OnePerTurn, NeverBoth, Restarts, Summarize, Reduce, LoopContext, Collect, Carry;
    trace, s := FirstTurnStart();
    trace, s := One(trace, s, MessageStart(followed));
    trace, s := One(trace, s, MessageEnd(followed));
    trace, s := One(trace, s, MessageStart(steered));
    trace, s := One(trace, s, MessageEnd(steered));
  }

  lemma FirstTurnStart() returns (trace: seq<Event>, s: Summary)
    ensures trace == [AgentStart, TurnStart]
    ensures s == Summary(InTurn(multiset{}), [], 0, 0, true, true, true, 0, s.context, s.flow, NO_CONFIG)
    ensures Scan(trace).Some? && Summarize([], NO_CONFIG, trace) == s
  {
    trace, s := [], Summary(Before, [], 0, 0, true, true, true, 0, [], START, NO_CONFIG);
    NothingYet();
    hide Scan, Payloads, InThisTurn, OnePerTurn, NeverBoth, Restarts, Summarize, Reduce, LoopContext, Collect, Carry;
    trace, s := One(trace, s, AgentStart);
    trace, s := One(trace, s, TurnStart);
  }

  lemma NothingYet()
    ensures Scan([]).Some? && Summarize([], NO_CONFIG, []) ==
            Summary(Before, [], 0, 0, true, true, true, 0, [], START, NO_CONFIG)
  {
  }

  lemma One(trace: seq<Event>, s: Summary, e: Event) returns (trace': seq<Event>, s': Summary)
    requires Scan(trace).Some? && Summarize([], NO_CONFIG, trace) == s && Step(s.phase, e).Some?
    ensures trace' == trace + [e] && s' == Advance(s, e)
    ensures Scan(trace').Some? && Summarize([], NO_CONFIG, trace') == s'
  {
    Snoc([], NO_CONFIG, trace, e);
    trace', s' := trace + [e], Advance(s, e);
  }

  lemma ReadSummary(base: seq<Message>, config: Config, trace: seq<Event>)
    requires Scan(trace).Some?
    ensures var s := Summarize(base, config, trace);
            && Some(s.phase) == Scan(trace) && s.payloads == Payloads(trace) && s.neverBoth == NeverBoth(trace)
            && s.oneSteered == OnePerTurn(trace, Steering) && s.oneFollowed == OnePerTurn(trace, FollowUp)
            && s.restarts == Restarts(trace) && s.context == LoopContext(base, config.prepareNextTurn, trace)
            && s.flow == Flows(trace, config)
  {
  }
}
