/**
 The agent and its loop. The model, the tools, the hooks, the listeners and the callers of steer,
 followUp and abort are an arbitrary environment: what they decide is chosen nondeterministically,
 and at every await they may queue messages and abort. A run is proved to emit a trace that follows
 the grammar of AgentTrace while three transcripts stay in step.
 */
module Agents {
  import opened Wrappers
  import opened AgentTrace

  datatype QueueMode = All | OneAtATime

  datatype Found = Found(at: nat, waiting: seq<Message>)

  /** What one drain takes from a queue that holds some messages. */
  function Drained(mode: QueueMode, messages: seq<Message>): seq<Message> {
    if mode == All || messages == [] then messages else [messages[0]]
  }

  /**
   PendingMessageQueue. All that was ever enqueued is what was taken followed by what still waits; for
   every drain in turn, `found` holds when it came and what was waiting.
   */
  class PendingMessageQueue {
    var messages: seq<Message>
    const mode: QueueMode
    const origin: Origin
    ghost var taken: seq<Message>
    ghost var enqueued: seq<Message>
    ghost var found: seq<Found>

    ghost predicate Valid()
      reads this
    {
      enqueued == taken + messages && forall m :: m in messages ==> From(m, origin)
    }

    constructor (mode: QueueMode, origin: Origin)
      ensures Valid() && this.mode == mode && this.origin == origin && messages == [] && taken == [] && enqueued == []
              && found == []
    {
      this.mode, this.origin, messages, taken, enqueued, found := mode, origin, [], [], [], [];
    }

    method Enqueue(message: Message)
      requires Valid() && From(message, origin)
      modifies this
      ensures Valid() && enqueued == old(enqueued) + [message] && taken == old(taken) && found == old(found)
    {
      messages := messages + [message];
      enqueued := enqueued + [message];
    }

    /** A drain when `at` events have been emitted. */
    method Drain(ghost at: nat) returns (drained: seq<Message>)
      requires Valid()
      modifies this
      ensures Valid() && enqueued == old(enqueued) && taken == old(taken) + drained
      ensures old(messages) == drained + messages && drained == Drained(mode, old(messages))
      ensures if mode == All then messages == [] else |drained| <= 1 && (drained == [] <==> old(messages) == [])
      ensures found == old(found) + [Found(at, old(messages))]
    {
      found := found + [Found(at, messages)];
      if mode == All {
        drained := messages;
        messages := [];
      } else if messages == [] {
        drained := [];
      } else {
        drained := [messages[0]];
        messages := messages[1..];
      }
      taken := taken + drained;
    }
  }

  const ABORTED := Outcome(0, true, false)   // "Operation aborted"
  const TRUNCATED := Outcome(1, true, false) // the response hit the output token limit

  /** What becomes of a call: rejected before the hooks, blocked by one, or executed with some updates. */
  datatype Plan = Rejected(outcome: Outcome) | Blocked(outcome: Outcome) | Executed(updates: nat, outcome: Outcome)

  /** prepareToolCall, with the signal as it is once the hooks have run. */
  function Prepare(plan: Plan, aborted: bool): Plan {
    if aborted && !plan.Rejected? then Rejected(ABORTED) else plan
  }

  function ResultMessage(call: ToolCall, outcome: Outcome): Message {
    ToolResult(call.id, outcome.content, outcome.isError)
  }

  /** The results of a batch that is not aborted, in source order. */
  function BatchResults(calls: seq<ToolCall>, plans: seq<Plan>): seq<Message>
    requires |calls| == |plans|
  {
    seq(|calls|, i requires 0 <= i < |calls| => ResultMessage(calls[i], plans[i].outcome))
  }

  predicate AllTerminate(outcomes: seq<Outcome>) {
    outcomes != [] && forall i :: 0 <= i < |outcomes| ==> outcomes[i].terminate
  }

  function Outcomes(plans: seq<Plan>): seq<Outcome> {
    seq(|plans|, i requires 0 <= i < |plans| => plans[i].outcome)
  }

  /**
   What a batch delivers, whichever way it is executed: one result per call of a source-order prefix,
   and without an abort every call's own result.
   */
  ghost predicate Delivers(calls: seq<ToolCall>, plans: seq<Plan>, results: seq<Message>, terminate: bool,
                           aborted: bool)
    requires |calls| == |plans|
  {
    && |results| <= |calls| && (calls != [] ==> results != [])
    && (forall i :: 0 <= i < |results| ==> results[i].ToolResult? && results[i].callId == calls[i].id)
    && (!aborted ==> results == BatchResults(calls, plans) && terminate == AllTerminate(Outcomes(plans)))
  }

  class Agent {
    var messages: seq<Message>
    var streamingMessage: Option<Message>
    var pendingToolCalls: set<string>
    const steering: PendingMessageQueue
    const followUp: PendingMessageQueue
    var config: Config
    var aborted: bool            // the active run's signal
    ghost var initial: AgentState
    ghost var trace: seq<Event>  // what the active run has emitted

    /** The queues are two, in order, and hold what was queued in them. */
    ghost predicate Queueing()
      reads this, steering, followUp
    {
      && steering != followUp && steering.Valid() && followUp.Valid()
      && steering.origin == Steering && followUp.origin == FollowUp
    }

    /** Between runs. */
    ghost predicate Ready()
      reads this, steering, followUp
    {
      Queueing() && Idle()
    }

    /** The state is what the active run's events make of the state before it. */
    ghost predicate Reduced()
      reads this, steering, followUp
    {
      Queueing() && State() == Reduce(initial, trace)
    }

    ghost predicate Valid()
      reads this, steering, followUp
    {
      Reduced() && Scan(trace).Some?
    }

    function State(): AgentState
      reads this
    {
      AgentState(messages, streamingMessage, pendingToolCalls)
    }

    ghost function Now(): (s: Summary)
      requires Scan(trace).Some?
      reads this
      ensures s.config == config && s.flow.overlaps == Overlaps(trace)
    {
      Summarize(initial.messages, config, trace)
    }

    constructor (messages: seq<Message>, steeringMode: QueueMode, followUpMode: QueueMode, config: Config)
      ensures Ready() && this.messages == messages && this.config == config && fresh(steering) && fresh(followUp)
      ensures steering.mode == steeringMode && steering.messages == [] && steering.taken == []
      ensures followUp.mode == followUpMode && followUp.messages == [] && followUp.taken == []
    {
      this.messages, streamingMessage, pendingToolCalls, aborted := messages, None, {}, false;
      steering := new PendingMessageQueue(steeringMode, Steering);
      followUp := new PendingMessageQueue(followUpMode, FollowUp);
      this.config, initial, trace := config, AgentState(messages, None, {}), [];
    }

    /** Since then, nothing was taken from the queues, and what was queued or aborted meanwhile stays so. */
    twostate predicate Later()
      reads this, steering, followUp
    {
      && initial == old(initial) && config == old(config) && (old(aborted) ==> aborted)
      && steering.taken == old(steering.taken) && old(steering.enqueued) <= steering.enqueued
      && followUp.taken == old(followUp.taken) && old(followUp.enqueued) <= followUp.enqueued
      && steering.found == old(steering.found) && followUp.found == old(followUp.found)
    }

    /** Everything else runs: callers may queue messages and abort. */
    method Await()
      requires Reduced()
      modifies this`aborted, steering, followUp
      ensures Reduced() && Later()
    {
      var steered: nat, followed: nat := *, *;
      for i := 0 to steered
        invariant Reduced() && Later()
        modifies steering
      {
        var content: nat := *;
        steering.Enqueue(User(Steering, content));
      }
      for i := 0 to followed
        invariant Reduced() && Later()
        modifies followUp
      {
        var content: nat := *;
        followUp.Enqueue(User(FollowUp, content));
      }
      if * { aborted := true; }
    }

    /** An event that follows the grammar. */
    method Emit(e: Event)
      requires Valid() && Step(Now().phase, e).Some?
      modifies this, steering, followUp
      ensures Valid() && Later() && trace == old(trace) + [e] && Now() == Advance(old(Now()), e)
    {
      Snoc(initial.messages, config, trace, e);
      ProcessEvents(e);
    }

    /** processEvents: the state is reduced, then the listeners are awaited. */
    method ProcessEvents(e: Event)
      requires Reduced()
      modifies this, steering, followUp
      ensures Reduced() && Later() && trace == old(trace) + [e]
    {
      assert (trace + [e])[..|trace|] == trace;
      trace := trace + [e];
      match e
      case MessageStart(m) => streamingMessage := Some(m);
      case MessageUpdate(m) => streamingMessage := Some(m);
      case MessageEnd(m) => streamingMessage := None; messages := messages + [m];
      case ToolStart(id) => pendingToolCalls := pendingToolCalls + {id};
      case ToolEnd(id, _) => pendingToolCalls := pendingToolCalls - {id};
      case AgentEnd(_) => streamingMessage := None;
      case _ => {}
      Await();
    }

    /** A message that starts and ends at once. */
    method EmitMessage(m: Message)
      requires Valid() && Now().phase == InTurn(multiset{})
      modifies this, steering, followUp
      ensures Valid() && Later() && old(trace) <= trace
      ensures Now() == AfterMessage(old(Now()), m)
    {
      Emit(MessageStart(m));
      Emit(MessageEnd(m));
    }

    /** A tool call starts, perhaps while others are running. */
    method StartTool(id: string)
      requires Valid() && Now().phase.InTurn?
      modifies this, steering, followUp
      ensures Valid() && Later() && old(trace) <= trace
      ensures Now() == old(Now()).(phase := InTurn(old(Now()).phase.running + multiset{id}),
              flow := old(Now()).flow.(overlaps := Now().flow.overlaps))
      ensures old(Now()).phase == InTurn(multiset{}) ==> Now().flow.overlaps == old(Now()).flow.overlaps
    {
      hide Queueing, Reduced, Summarize, Overlaps, Reduce, Process, State, Scan;
      Emit(ToolStart(id));
    }

    method UpdateTool(id: string)
      requires Valid() && Now().phase.InTurn? && id in Now().phase.running
      modifies this, steering, followUp
      ensures Valid() && Later() && old(trace) <= trace && Now() == old(Now())
    {
      hide Queueing, Reduced, Summarize, Overlaps, Reduce, Process, State, Scan;
      Emit(ToolUpdate(id));
    }

    /** A tool call ends; the run goes on unless all calls of the turn ask to stop. */
    method EndTool(id: string, outcome: Outcome)
      requires Valid() && Now().phase.InTurn? && id in Now().phase.running
      modifies this, steering, followUp
      ensures Valid() && Later() && old(trace) <= trace
      ensures Now() == old(Now()).(phase := InTurn(old(Now()).phase.running - multiset{id}),
              flow := old(Now()).flow.(goesOn := old(Now()).flow.goesOn || !outcome.terminate))
    {
      hide Queueing, Reduced, Summarize, Overlaps, Reduce, Process, State, Scan;
      Emit(ToolEnd(id, outcome));
    }

    method EmitResult(m: Message)
      requires Valid() && !m.User? && Now().phase == InTurn(multiset{})
      modifies this, steering, followUp
      ensures Valid() && Later() && old(trace) <= trace
      ensures Now() == Adding(old(Now()), [m])
    {
      hide Queueing, Reduced, Summarize, Overlaps, Reduce, Process, State, Scan;
      ResultAdds(Now(), m);
      EmitMessage(m);
    }

    /** streamAssistantResponse, for what the model streams before its final message. */
    method StreamAssistantResponse(context: seq<Message>, stream: seq<StreamEvent>, final: Message)
      returns (context': seq<Message>)
      requires Valid() && Now().phase == InTurn(multiset{}) && context == Now().context
      requires final.Assistant?
      modifies this, steering, followUp
      ensures Valid() && Later() && old(trace) <= trace
      ensures Now() == old(Now()).(payloads := old(Now()).payloads + [final], context := context',
              restarts := old(Now()).restarts + Again(false, stream))
      ensures context' == AfterStream(context, stream, final)
      ensures trace == old(trace) + Emission(false, stream, final)
    {
      hide Queueing, Reduced, Summarize, Overlaps, Reduce, State, Scan, AfterStream, Streaming, Finalize, Emission,
        Again;
      Await();
      StreamBegins(context, stream, final);
      var added;
      context', added := Consume(context, stream, final);
      Await();
      if added {
        context' := context'[|context'| - 1 := final];
      } else {
        context' := context' + [final];
      }
      EmitFinal(final, added);
    }

    /** The loop over the events of the stream. */
    method Consume(context: seq<Message>, stream: seq<StreamEvent>, ghost final: Message)
      returns (context': seq<Message>, added: bool)
      requires Valid() && Now().phase == InTurn(multiset{}) && context == Now().context
      modifies this, steering, followUp
      ensures Valid() && Later() && old(trace) <= trace
      ensures Now() == Streams(old(Now()), added, old(Now()).restarts + Again(false, stream), context')
      ensures added ==> context' != []
      ensures Finalize(Streaming(context, false, stream), final) ==
              if added then context'[|context'| - 1 := final] else context' + [final]
      ensures trace + Emission(added, [], final) == old(trace) + Emission(false, stream, final)
    {
      hide Queueing, Reduced, Summarize, Overlaps, Reduce, State, Scan, Streaming, Finalize, Emission, Again;
      context', added := context, false;
      var rest := stream;
      while rest != [] && !rest[0].Finish?
        invariant Valid() && Later() && old(trace) <= trace
        invariant added ==> context' != []
        invariant Now() == Streams(old(Now()), added, Now().restarts, context')
        invariant Now().restarts + Again(added, rest) == old(Now()).restarts + Again(false, stream)
        invariant Finalize(Streaming(context, false, stream), final) ==
                  Finalize(Streaming(context', added, rest), final)
        invariant trace + Emission(added, rest, final) == old(trace) + Emission(false, stream, final)
      {
        context', added := ConsumeOne(old(Now()), context', added, rest, final);
        rest := rest[1..];
      }
      StreamEnds(context', added, rest, final);
    }

    /** What the rest of the stream will come to does not change when its first event has been received. */
    method ConsumeOne(ghost s: Summary, context: seq<Message>, added: bool, rest: seq<StreamEvent>,
                      ghost final: Message)
      returns (context': seq<Message>, added': bool)
      requires Valid() && rest != [] && !rest[0].Finish? && (added ==> context != [])
      requires s.phase == InTurn(multiset{}) && Now() == Streams(s, added, Now().restarts, context)
      modifies this, steering, followUp
      ensures Valid() && Later() && old(trace) <= trace && (added' ==> context' != [])
      ensures Now() == Streams(s, added', Now().restarts, context')
      ensures Now().restarts + Again(added', rest[1..]) == old(Now()).restarts + Again(added, rest)
      ensures Finalize(Streaming(context', added', rest[1..]), final) ==
              Finalize(Streaming(context, added, rest), final)
      ensures trace + Emission(added', rest[1..], final) == old(trace) + Emission(added, rest, final)
    {
      hide Queueing, Reduced, Summarize, Overlaps, Reduce, State, Scan, Streaming, Finalize, Emission, Again, Streams,
        OneMore;
      StreamStep(context, added, rest, final);
      StreamsOn(s, Now(), added, context, rest[0]);
      AddAssoc(trace, Emitted(added, rest[0]), Emission(added || rest[0].Begin?, rest[1..], final));
      context', added' := Receive(context, added, rest[0]);
    }

    /** The end of the stream: a message that was never started starts and ends at once. */
    method EmitFinal(final: Message, added: bool)
      requires Valid() && final.Assistant? && Now().phase == if added then InMessage(true) else InTurn(multiset{})
      modifies this, steering, followUp
      ensures Valid() && Later() && old(trace) <= trace
      ensures Now() == old(Now()).(phase := InTurn(multiset{}), payloads := old(Now()).payloads + [final],
              context := if added then Latest(old(Now()).context, final) else old(Now()).context + [final])
      ensures trace == old(trace) + Emission(added, [], final)
    {
      hide Queueing, Reduced, Summarize, Overlaps, Reduce, State, Scan;
      LatestOf(Now().context, final);
      if !added {
        Emit(MessageStart(final));
      }
      Emit(MessageEnd(final));
    }

    /** One event of the stream: the partial message in the context is begun or replaced. */
    method Receive(context: seq<Message>, added: bool, event: StreamEvent)
      returns (context': seq<Message>, added': bool)
      requires Valid() && !event.Finish? && (added ==> context != []) && context == Now().context
      requires Now().phase == if added then InMessage(true) else InTurn(multiset{})
      modifies this, steering, followUp
      ensures Valid() && Later() && old(trace) <= trace
      ensures (context', added') == OneMore(context, added, event) && trace == old(trace) + Emitted(added, event)
      ensures Now() == Streams(old(Now()), added', old(Now()).restarts + (if added && event.Begin? then 1 else 0),
              context')
    {
      hide Queueing, Reduced, Summarize, Overlaps, Reduce, State, Scan;
      context', added' := context, added;
      match event {
        case Begin(m) =>
          context', added' := context + [m], true;
          Emit(MessageStart(m));
        case Update(m) =>
          if added {
            context' := context[|context| - 1 := m];
            Emit(MessageUpdate(m));
          }
      }
    }

    /** failToolCallsFromTruncatedMessage. */
    method FailToolCalls(calls: seq<ToolCall>) returns (results: seq<Message>)
      requires Valid() && Now().phase == InTurn(multiset{})
      modifies this, steering, followUp
      ensures Valid() && Later() && old(trace) <= trace
      ensures Now() == Batch(old(Now()), results, old(Now()).flow.goesOn || calls != [], old(Now()).flow.overlaps)
      ensures |results| == |calls| && forall i :: 0 <= i < |calls| ==> results[i] == ResultMessage(calls[i], TRUNCATED)
    {
      hide Queueing, Reduced, Summarize, Overlaps, Reduce, State, Scan;
      results := [];
      AddsNothing(Now());
      for i := 0 to |calls|
        invariant Valid() && Later() && old(trace) <= trace
        invariant Now() == Batch(old(Now()), results, old(Now()).flow.goesOn || i > 0, old(Now()).flow.overlaps)
        invariant |results| == i && forall j :: 0 <= j < i ==> results[j] == ResultMessage(calls[j], TRUNCATED)
      {
        hide Batch;
        AddsMore(old(Now()), results, ResultMessage(calls[i], TRUNCATED), old(Now()).flow.goesOn || i > 0, true);
        FailOne(calls[i]);
        results := results + [ResultMessage(calls[i], TRUNCATED)];
      }
    }

    method FailOne(call: ToolCall)
      requires Valid() && Now().phase == InTurn(multiset{})
      modifies this, steering, followUp
      ensures Valid() && Later() && old(trace) <= trace
      ensures Now() == Batch(old(Now()), [ResultMessage(call, TRUNCATED)], true, old(Now()).flow.overlaps)
    {
      hide Queueing, Reduced, Summarize, Overlaps, Reduce, State, Scan, Batch, Adding;
      ghost var before := Now();
      StartTool(call.id);
      EndTool(call.id, TRUNCATED);
      assert multiset{} + multiset{call.id} - multiset{call.id} == multiset{};
      OneResult(before, Now(), ResultMessage(call, TRUNCATED), true);
      EmitResult(ResultMessage(call, TRUNCATED));
    }

    /** executePreparedToolCall and the hook after it; an aborted tool may return anything. */
    method ExecutePrepared(id: string, plan: Plan) returns (outcome: Outcome)
      requires Valid() && plan.Executed? && Now().phase.InTurn? && id in Now().phase.running
      modifies this, steering, followUp
      ensures Valid() && Later() && old(trace) <= trace && Now() == old(Now())
      ensures !aborted ==> outcome == plan.outcome
    {
      hide Queueing, Reduced, Summarize, Overlaps, Reduce, State, Scan;
      for k := 0 to plan.updates
        invariant Valid() && Later() && old(trace) <= trace && Now() == old(Now())
      {
        UpdateTool(id);
      }
      Await();
      outcome := plan.outcome;
      if aborted { outcome := *; }
    }

    /** One call of a sequential batch, from its start to its end. */
    method RunCall(call: ToolCall, plan: Plan) returns (outcome: Outcome)
      requires Valid() && Now().phase == InTurn(multiset{})
      modifies this, steering, followUp
      ensures Valid() && Later() && old(trace) <= trace
      ensures Now() == old(Now()).(flow := old(Now()).flow.(goesOn := old(Now()).flow.goesOn || !outcome.terminate))
      ensures !aborted ==> outcome == plan.outcome
      ensures old(aborted) ==> outcome == Prepare(plan, true).outcome
    {
      hide Queueing, Reduced, Summarize, Overlaps, Reduce, State, Scan;
      StartTool(call.id);
      Await();
      var prepared := Prepare(plan, aborted);
      outcome := prepared.outcome;
      if prepared.Executed? {
        outcome := ExecutePrepared(call.id, prepared);
      }
      EndTool(call.id, outcome);
      assert multiset{} + multiset{call.id} - multiset{call.id} == multiset{};
    }

    /** The same, with its result message. */
    method ExecuteOne(call: ToolCall, plan: Plan) returns (outcome: Outcome)
      requires Valid() && Now().phase == InTurn(multiset{})
      modifies this, steering, followUp
      ensures Valid() && Later() && old(trace) <= trace
      ensures Now() == Batch(old(Now()), [ResultMessage(call, outcome)],
              old(Now()).flow.goesOn || !outcome.terminate, old(Now()).flow.overlaps)
      ensures !aborted ==> outcome == plan.outcome
      ensures old(aborted) ==> outcome == Prepare(plan, true).outcome
    {
      hide Queueing, Reduced, Summarize, Overlaps, Reduce, State, Scan, Batch, Adding;
      ghost var before := Now();
      outcome := RunCall(call, plan);
      OneResult(before, Now(), ResultMessage(call, outcome), !outcome.terminate);
      EmitResult(ResultMessage(call, outcome));
    }

    method ExecuteToolCallsSequential(calls: seq<ToolCall>, plans: seq<Plan>)
      returns (results: seq<Message>, terminate: bool)
      requires Valid() && Now().phase == InTurn(multiset{}) && !Now().flow.goesOn && |plans| == |calls|
      modifies this, steering, followUp
      ensures Valid() && Later() && old(trace) <= trace
      ensures Now() == Batch(old(Now()), results, results != [] && !terminate, old(Now()).flow.overlaps)
      ensures Delivers(calls, plans, results, terminate, aborted) && (old(aborted) ==> Cut(calls, plans, results))
    {
      hide Queueing, Reduced, Summarize, Overlaps, Reduce, State, Scan, SomeGoesOn, Delivers, AllTerminate,
        ResultMessage,
        Prepare;
      var outcomes: seq<Outcome> := [];
      NoOutcome();
      ghost var before := Now();
      results := [];
      AddsNothing(Now());
      var i := 0;
      while i < |calls|
        invariant 0 <= i <= |calls| && |results| == i
        invariant Valid() && Later() && old(trace) <= trace
        invariant Now() == Batch(before, results, SomeGoesOn(outcomes), before.flow.overlaps)
        invariant Matched(calls, plans, outcomes, results, aborted)
        invariant old(aborted) ==> i == 0
      {
        hide Batch, Matched;
        outcomes, results := ExecuteNext(before, calls, plans, outcomes, results);
        i := i + 1;
        if aborted { break; }
      }
      terminate := AllTerminate(outcomes);
      Delivered(calls, plans, outcomes, results, aborted);
    }

    /** The next call of a sequential batch. */
    method ExecuteNext(ghost before: Summary, calls: seq<ToolCall>, plans: seq<Plan>, outcomes: seq<Outcome>,
                       results: seq<Message>)
      returns (outcomes': seq<Outcome>, results': seq<Message>)
      requires Valid() && before.phase == InTurn(multiset{}) && Matched(calls, plans, outcomes, results, aborted)
               && |results| < |calls| && Now() == Batch(before, results, SomeGoesOn(outcomes), before.flow.overlaps)
      modifies this, steering, followUp
      ensures Valid() && Later() && old(trace) <= trace
      ensures |results'| == |results| + 1 && Matched(calls, plans, outcomes', results', aborted)
      ensures Now() == Batch(before, results', SomeGoesOn(outcomes'), before.flow.overlaps)
      ensures old(aborted) ==>
                results' == results + [ResultMessage(calls[|results|], Prepare(plans[|results|], true).outcome)]
    {
      hide Queueing, Reduced, Summarize, Overlaps, Reduce, State, Scan, Batch, SomeGoesOn, ResultMessage, Prepare;
      var i := |results|;
      AddsMore(before, results, ResultMessage(calls[i], plans[i].outcome), SomeGoesOn(outcomes), true);
      var outcome := ExecuteOne(calls[i], plans[i]);
      AddsMore(before, results, ResultMessage(calls[i], outcome), SomeGoesOn(outcomes),
               SomeGoesOn(outcomes) || !outcome.terminate);
      OneMoreOutcome(outcomes, outcome);
      outcomes', results' := outcomes + [outcome], results + [ResultMessage(calls[i], outcome)];
    }

    method ExecuteToolCallsParallel(calls: seq<ToolCall>, plans: seq<Plan>)
      returns (results: seq<Message>, terminate: bool)
      requires Valid() && Now().phase == InTurn(multiset{}) && !Now().flow.goesOn && |plans| == |calls|
      modifies this, steering, followUp
      ensures Valid() && Later() && old(trace) <= trace
      ensures Now() == Batch(old(Now()), results, results != [] && !terminate, Now().flow.overlaps)
      ensures Delivers(calls, plans, results, terminate, aborted) && (old(aborted) ==> Cut(calls, plans, results))
    {
      hide Queueing, Reduced, Summarize, Overlaps, Reduce, State, Scan, Awaited, SomeGoesOn, Unfinished, Delivers,
        AllTerminate;
      var finalized, deferred := PrepareAll(calls, plans);
      finalized := RunAll(calls, plans, finalized, deferred);
      var outcomes := seq(|finalized|, i requires 0 <= i < |finalized| => finalized[i].value);
      OutcomesGoOn(finalized, outcomes);
      results := EmitResults(calls, outcomes);
      terminate := AllTerminate(outcomes);
      Delivered(calls, plans, outcomes, results, aborted);
    }

    /** The results of a batch, in the order of its calls. */
    method EmitResults(calls: seq<ToolCall>, outcomes: seq<Outcome>) returns (results: seq<Message>)
      requires Valid() && Now().phase == InTurn(multiset{}) && |outcomes| <= |calls|
      modifies this, steering, followUp
      ensures Valid() && Later() && old(trace) <= trace && Now() == Adding(old(Now()), results)
      ensures |results| == |outcomes|
              && forall i :: 0 <= i < |results| ==> results[i] == ResultMessage(calls[i], outcomes[i])
    {
      hide Queueing, Reduced, Summarize, Overlaps, Reduce, State, Scan;
      results := [];
      for i := 0 to |outcomes|
        invariant |results| == i && Valid() && Later() && old(trace) <= trace && Now() == Adding(old(Now()), results)
        invariant forall j :: 0 <= j < i ==> results[j] == ResultMessage(calls[j], outcomes[j])
      {
        hide Adding;
        ResultsMore(old(Now()), results, ResultMessage(calls[i], outcomes[i]));
        EmitResult(ResultMessage(calls[i], outcomes[i]));
        results := results + [ResultMessage(calls[i], outcomes[i])];
      }
    }

    /**
     The first loop of executeToolCallsParallel: calls that need no execution end at once, the others are
     deferred.
     */
    method PrepareAll(calls: seq<ToolCall>, plans: seq<Plan>)
      returns (finalized: seq<Option<Outcome>>, deferred: seq<nat>)
      requires Valid() && Now().phase == InTurn(multiset{}) && !Now().flow.goesOn && |plans| == |calls|
      modifies this, steering, followUp
      ensures Valid() && Later() && old(trace) <= trace
      ensures Agreed(plans, finalized, aborted) && (!aborted ==> |finalized| == |calls|)
              && (calls != [] ==> finalized != [])
      ensures Awaited(|calls|, finalized, deferred)
      ensures Now() == Underway(old(Now()), Ids(calls, deferred), finalized, Now().flow.overlaps)
      ensures old(aborted) && calls != [] ==> finalized == [Some(Prepare(plans[0], true).outcome)]
    {
      hide Queueing, Reduced, Summarize, Overlaps, Reduce, State, Scan, Ids, Awaited;
      finalized, deferred := [], [];
      NoIds(calls);
      var i := 0;
      while i < |calls|
        invariant 0 <= i <= |calls| && |finalized| == i
        invariant Valid() && Later() && old(trace) <= trace
        invariant Agreed(plans, finalized, aborted) && Awaited(|calls|, finalized, deferred)
        invariant Now() == Underway(old(Now()), Ids(calls, deferred), finalized, Now().flow.overlaps)
        invariant old(aborted) ==> i == 0
      {
        hide Underway;
        Ongoing(old(Now()), Now(), Ids(calls, deferred), finalized);
        finalized, deferred := PrepareOne(calls, plans, finalized, deferred);
        i := i + 1;
        if aborted { break; }
      }
    }

    method PrepareOne(calls: seq<ToolCall>, plans: seq<Plan>, finalized: seq<Option<Outcome>>, deferred: seq<nat>)
      returns (finalized': seq<Option<Outcome>>, deferred': seq<nat>)
      requires Valid() && |plans| == |calls| && |finalized| < |calls|
      requires Agreed(plans, finalized, aborted) && Awaited(|calls|, finalized, deferred)
               && Now().phase == InTurn(Ids(calls, deferred)) && Now().flow.goesOn == Unfinished(finalized)
      modifies this, steering, followUp
      ensures Valid() && Later() && old(trace) <= trace && |finalized'| == |finalized| + 1
      ensures Agreed(plans, finalized', aborted) && Awaited(|calls|, finalized', deferred')
      ensures Now() == Underway(old(Now()), Ids(calls, deferred'), finalized', Now().flow.overlaps)
      ensures old(aborted) ==> finalized' == finalized + [Some(Prepare(plans[|finalized|], true).outcome)]
    {
      hide Queueing, Reduced, Summarize, Overlaps, Reduce, State, Scan, Ids, Awaited, Unfinished;
      var i := |finalized|;
      var plan := PrepareCall(calls[i], plans[i]);
      MoreOutcomes(finalized, if plan.Executed? then None else Some(plan.outcome));
      if plan.Executed? {
        IdsAppend(calls, deferred, i);
        AwaitOne(|calls|, finalized, deferred);
        finalized', deferred' := finalized + [None], deferred + [i];
      } else {
        FinalizeOne(|calls|, finalized, deferred, plan.outcome);
        finalized', deferred' := finalized + [Some(plan.outcome)], deferred;
      }
    }

    /** A call starts and is prepared; if it needs no execution it ends at once. */
    method PrepareCall(call: ToolCall, plan: Plan) returns (prepared: Plan)
      requires Valid() && Now().phase.InTurn?
      modifies this, steering, followUp
      ensures Valid() && Later() && old(trace) <= trace
      ensures !aborted ==> prepared == plan
      ensures old(aborted) ==> prepared == Prepare(plan, true)
      ensures Now() == old(Now()).(
                phase := InTurn(old(Now()).phase.running + if prepared.Executed? then multiset{call.id}
                  else multiset{}),
                flow := old(Now()).flow.(overlaps := Now().flow.overlaps,
                        goesOn := old(Now()).flow.goesOn || (!prepared.Executed? && !prepared.outcome.terminate)))
    {
      hide Queueing, Reduced, Summarize, Overlaps, Reduce, State, Scan;
      ghost var running := Now().phase.running;
      StartTool(call.id);
      Await();
      prepared := Prepare(plan, aborted);
      if !prepared.Executed? {
        EndTool(call.id, prepared.outcome);
        assert running + multiset{call.id} - multiset{call.id} == running + multiset{};
      }
    }

    /** A tool runs up to its first await; it and the first `started` of the calls waited for may send updates. */
    method StartOne(calls: seq<ToolCall>, finalized: seq<Option<Outcome>>, waiting: seq<nat>, started: nat)
      requires Valid() && started <= |waiting| && Awaited(|calls|, finalized, waiting)
               && Now().phase == InTurn(Ids(calls, waiting))
      modifies this, steering, followUp
      ensures Valid() && Later() && old(trace) <= trace && Now() == old(Now())
    {
      hide Queueing, Reduced, Summarize, Overlaps, Reduce, State, Scan, Ids, Awaited;
      Await();
      var updates: nat := *;
      while updates > 0 && started > 0
        invariant Valid() && Later() && old(trace) <= trace && Now() == old(Now())
      {
        var p: nat :| p < started;
        UpdateOne(calls, finalized, waiting, p);
        updates := updates - 1;
      }
    }

    /** Promise.all over the deferred calls: each starts in order, unless the run has been aborted by then. */
    method RunAll(calls: seq<ToolCall>, plans: seq<Plan>, prepared: seq<Option<Outcome>>, deferred: seq<nat>)
      returns (finalized: seq<Option<Outcome>>)
      requires Valid() && |plans| == |calls| && Agreed(plans, prepared, aborted) && Awaited(|calls|, prepared, deferred)
      requires Now().phase == InTurn(Ids(calls, deferred)) && Now().flow.goesOn == Unfinished(prepared)
      modifies this, steering, followUp
      ensures Valid() && Later() && old(trace) <= trace
      ensures Filled(prepared, finalized) && Agreed(plans, finalized, aborted)
              && forall i :: 0 <= i < |finalized| ==> finalized[i].Some?
      ensures Now() == Underway(old(Now()), multiset{}, finalized, old(Now()).flow.overlaps)
      ensures old(aborted) ==>
                forall i :: 0 <= i < |prepared| && prepared[i].None? ==> finalized[i] == Some(ABORTED)
    {
      hide Queueing, Reduced, Summarize, Overlaps, Reduce, State, Scan, Ids, Awaited, Unfinished, Agreed;
      finalized := prepared;
      var running: seq<nat>, rest := [], deferred;
      assert running + rest == deferred;
      Untouched(Now(), prepared);
      while rest != []
        invariant Valid() && Later() && old(trace) <= trace
        invariant Filled(prepared, finalized) && Agreed(plans, finalized, aborted)
                  && Awaited(|calls|, finalized, running + rest)
        invariant Now() == Underway(old(Now()), Ids(calls, running + rest), finalized, old(Now()).flow.overlaps)
        invariant old(aborted) ==> running == [] && Skipped(prepared, finalized)
      {
        hide Underway, Filled, Skipped;
        Ongoing(old(Now()), Now(), Ids(calls, running + rest), finalized);
        ghost var before := finalized;
        finalized, running := RunNext(calls, plans, finalized, running, rest);
        FilledThen(prepared, before, finalized);
        if old(aborted) { SkippedThen(prepared, before, rest[0]); }
        rest := rest[1..];
      }
      assert running + rest == running;
      ghost var started := finalized;
      Ongoing(old(Now()), Now(), Ids(calls, running), finalized);
      if running == [] { AllAwaited(|calls|, finalized); }
      finalized := Complete(calls, plans, finalized, running);
      FilledThen(prepared, started, finalized);
    }

    /** The next of the deferred calls starts, unless the run has been aborted by then. */
    method RunNext(calls: seq<ToolCall>, plans: seq<Plan>, finalized: seq<Option<Outcome>>, running: seq<nat>,
                   rest: seq<nat>)
      returns (finalized': seq<Option<Outcome>>, running': seq<nat>)
      requires Valid() && |plans| == |calls| && rest != []
      requires Agreed(plans, finalized, aborted) && Awaited(|calls|, finalized, running + rest)
      requires Now().phase == InTurn(Ids(calls, running + rest)) && Now().flow.goesOn == Unfinished(finalized)
      modifies this, steering, followUp
      ensures Valid() && Later() && old(trace) <= trace
      ensures Filled(finalized, finalized') && Agreed(plans, finalized', aborted)
              && Awaited(|calls|, finalized', running' + rest[1..])
      ensures Now() == Underway(old(Now()), Ids(calls, running' + rest[1..]), finalized', old(Now()).flow.overlaps)
      ensures old(aborted) ==>
                && running' == running && rest[0] < |finalized|
                && finalized' == finalized[rest[0] := Some(ABORTED)]
    {
      hide Queueing, Reduced, Summarize, Overlaps, Reduce, State, Scan, Ids, Awaited, Unfinished;
      if aborted {
        assert (running + rest)[|running|] == rest[0];
        assert (running + rest)[..|running|] + (running + rest)[|running| + 1..] == running + rest[1..];
        running' := running;
        finalized' := EndOne(calls, finalized, running + rest, |running|, ABORTED);
      } else {
        StartOne(calls, finalized, running + rest, |running| + 1);
        assert running + rest == (running + [rest[0]]) + rest[1..];
        finalized', running' := finalized, running + [rest[0]];
      }
    }

    /** One of the executions waited for ends. */
    method EndOne(calls: seq<ToolCall>, finalized: seq<Option<Outcome>>, waiting: seq<nat>, p: nat, outcome: Outcome)
      returns (finalized': seq<Option<Outcome>>)
      requires Valid() && p < |waiting| && Awaited(|calls|, finalized, waiting)
               && Now().phase == InTurn(Ids(calls, waiting)) && Now().flow.goesOn == Unfinished(finalized)
      modifies this, steering, followUp
      ensures Valid() && Later() && old(trace) <= trace
      ensures waiting[p] < |finalized| && finalized' == finalized[waiting[p] := Some(outcome)]
      ensures Filled(finalized, finalized')
      ensures Awaited(|calls|, finalized', waiting[..p] + waiting[p + 1..])
      ensures Now() == Underway(old(Now()), Ids(calls, waiting[..p] + waiting[p + 1..]), finalized',
              old(Now()).flow.overlaps)
    {
      hide Queueing, Reduced, Summarize, Overlaps, Reduce, State, Scan, Ids;
      IdsRemove(calls, waiting, p);
      AwaitedRemove(|calls|, finalized, waiting, p, outcome);
      OutcomeSet(finalized, waiting[p], outcome);
      EndTool(calls[waiting[p]].id, outcome);
      finalized' := finalized[waiting[p] := Some(outcome)];
      hide Awaited;
    }

    /** The executions interleave their updates and complete in any order. */
    method Complete(calls: seq<ToolCall>, plans: seq<Plan>, prepared: seq<Option<Outcome>>, started: seq<nat>)
      returns (finalized: seq<Option<Outcome>>)
      requires Valid() && |plans| == |calls| && Agreed(plans, prepared, aborted) && Awaited(|calls|, prepared, started)
      requires Now().phase == InTurn(Ids(calls, started)) && Now().flow.goesOn == Unfinished(prepared)
      modifies this, steering, followUp
      ensures Valid() && Later() && old(trace) <= trace
      ensures Filled(prepared, finalized) && Agreed(plans, finalized, aborted)
              && forall i :: 0 <= i < |finalized| ==> finalized[i].Some?
      ensures Now() == Underway(old(Now()), multiset{}, finalized, old(Now()).flow.overlaps)
    {
      hide Queueing, Reduced, Summarize, Overlaps, Reduce, State, Scan, Ids, Awaited, Unfinished, Agreed;
      finalized := prepared;
      var running := started;
      var updates: nat := *;
      Untouched(Now(), prepared);
      while running != []
        invariant Valid() && Later() && old(trace) <= trace
        invariant Filled(prepared, finalized) && Agreed(plans, finalized, aborted)
                  && Awaited(|calls|, finalized, running)
        invariant Now() == Underway(old(Now()), Ids(calls, running), finalized, old(Now()).flow.overlaps)
        decreases |running|, updates
      {
        hide Underway, Filled;
        Ongoing(old(Now()), Now(), Ids(calls, running), finalized);
        var p: nat :| p < |running|;
        var updating: bool := *;
        if updating && updates > 0 {
          updates := updates - 1;
          ghost var before := aborted;
          UpdateOne(calls, finalized, running, p);
          AgreedLater(plans, finalized, before, aborted);
        } else {
          ghost var before := finalized;
          finalized := CompleteOne(calls, plans, finalized, running, p);
          FilledThen(prepared, before, finalized);
          running := running[..p] + running[p + 1..];
        }
      }
      NoIds(calls);
      AllAwaited(|calls|, finalized);
    }

    /** A running execution sends an update. */
    method UpdateOne(calls: seq<ToolCall>, finalized: seq<Option<Outcome>>, running: seq<nat>, p: nat)
      requires Valid() && p < |running| && Awaited(|calls|, finalized, running)
      requires Now().phase == InTurn(Ids(calls, running))
      modifies this, steering, followUp
      ensures Valid() && Later() && old(trace) <= trace && Now() == old(Now())
    {
      hide Queueing, Reduced, Summarize, Overlaps, Reduce, State, Scan, Ids, Awaited;
      InRange(|calls|, finalized, running, p);
      IdsRemove(calls, running, p);
      UpdateTool(calls[running[p]].id);
    }

    /** A running execution completes; an aborted one may return anything. */
    method CompleteOne(calls: seq<ToolCall>, plans: seq<Plan>, finalized: seq<Option<Outcome>>, running: seq<nat>,
                       p: nat)
      returns (finalized': seq<Option<Outcome>>)
      requires Valid() && |plans| == |calls| && p < |running| && Awaited(|calls|, finalized, running)
      requires Agreed(plans, finalized, aborted) && Now().phase == InTurn(Ids(calls, running))
               && Now().flow.goesOn == Unfinished(finalized)
      modifies this, steering, followUp
      ensures Valid() && Later() && old(trace) <= trace
      ensures Filled(finalized, finalized') && Agreed(plans, finalized', aborted)
      ensures Awaited(|calls|, finalized', running[..p] + running[p + 1..])
      ensures Now() == Underway(old(Now()), Ids(calls, running[..p] + running[p + 1..]), finalized',
              old(Now()).flow.overlaps)
    {
      hide Queueing, Reduced, Summarize, Overlaps, Reduce, State, Scan, Ids, Awaited;
      InRange(|calls|, finalized, running, p);
      Await();
      var outcome := plans[running[p]].outcome;
      if aborted { outcome := *; }
      finalized' := EndOne(calls, finalized, running, p, outcome);
    }

    ghost predicate Balances(context: seq<Message>, newMessages: seq<Message>, pending: seq<Message>, source: Origin,
                             books: Books)
      requires Scan(trace).Some?
      reads this, steering, followUp
    {
      Ledger(Tallied(Now()), Queued(), context, newMessages, pending, source, books)
    }

    ghost function Queued(): Queues
      reads this, steering, followUp
    {
      Queues(steering.taken, followUp.taken, steering.mode, followUp.mode)
    }

    /** Injecting the pending messages at the start of a turn. */
    method Inject(context: seq<Message>, newMessages: seq<Message>, pending: seq<Message>, ghost source: Origin,
                  ghost books: Books)
      returns (context': seq<Message>, newMessages': seq<Message>)
      requires Valid() && Now().phase == InTurn(multiset{}) && Balances(context, newMessages, pending, source, books)
      requires pending != [] ==> Room(Now(), source, steering.mode, followUp.mode)
      modifies this, steering, followUp
      ensures Valid() && Later() && old(trace) <= trace && Now().phase == InTurn(multiset{})
      ensures Balances(context', newMessages', [], source, books)
      ensures Now().neverBoth == (old(Now()).neverBoth && (pending == [] || !Other(old(Now()), source)))
      ensures Now().flow == old(Now()).flow && (pending != [] ==> Now().steered + Now().followed > 0)
    {
      hide Queueing, Reduced, Summarize, Overlaps, Reduce, State, Scan, Ledger, Advance, Other;
      context', newMessages' := context, newMessages;
      var rest := pending;
      while rest != []
        invariant Valid() && Later() && old(trace) <= trace && Now().phase == InTurn(multiset{})
        invariant Balances(context', newMessages', rest, source, books)
        invariant rest == pending ==> Now() == old(Now())
        invariant Now().flow == old(Now()).flow && (rest != pending ==> Now().steered + Now().followed > 0)
        invariant rest != pending ==>
                    pending != [] && Now().neverBoth == (old(Now()).neverBoth && !Other(old(Now()), source))
        invariant Other(Now(), source) == Other(old(Now()), source)
        invariant |rest| <= |pending| && (rest != [] ==> Room(Now(), source, steering.mode, followUp.mode))
      {
        InjectOne(Now(), Queued(), context', newMessages', rest, source, books);
        EmitMessage(rest[0]);
        context' := context' + [rest[0]];
        newMessages' := newMessages' + [rest[0]];
        rest := rest[1..];
      }
    }

    /**
     One response of the model and the tools it calls, up to the end of the turn; an error or abort of the
     model ends the run. There is more to do exactly if a call of the turn did not ask to stop.
     */
    method Respond(context: seq<Message>, newMessages: seq<Message>, ghost source: Origin, ghost books: Books)
      returns (context': seq<Message>, newMessages': seq<Message>, hasMoreToolCalls: bool, failed: bool)
      requires Valid() && Now().phase == InTurn(multiset{}) && Balances(context, newMessages, [], source, books)
      requires !Now().flow.goesOn && Justified(Now())
      modifies this, steering, followUp
      ensures Valid() && Later() && old(trace) <= trace && Balances(context', newMessages', [], source, books)
      ensures newMessages < newMessages' && newMessages'[|newMessages|].Assistant?
      ensures Now() == AfterTurnEnd(old(Now()), newMessages', context', newMessages'[|newMessages|], hasMoreToolCalls,
              Now().restarts, Now().flow.overlaps)
      ensures var message := newMessages'[|newMessages|];
              && failed == Failed(message)
              && (failed || message.calls == [] ==> newMessages' == newMessages + [message] && !hasMoreToolCalls)
      ensures config.toolExecution.Sequential? ==> Overlaps(trace) == old(Overlaps(trace))
    {
      hide Queueing, Reduced, Summarize, Overlaps, Reduce, State, Scan, Ledger, AfterTurnEnd, Justified;
      var stream, message := AnyResponse();
      context', newMessages', hasMoreToolCalls := RespondWith(stream, message, context, newMessages, source, books);
      failed := Failed(message);
    }

    /** The same for a given response. */
    method RespondWith(stream: seq<StreamEvent>, message: Message, context: seq<Message>, newMessages: seq<Message>,
                       ghost source: Origin, ghost books: Books)
      returns (context': seq<Message>, newMessages': seq<Message>, hasMoreToolCalls: bool)
      requires Valid() && Now().phase == InTurn(multiset{}) && Balances(context, newMessages, [], source, books)
      requires !Now().flow.goesOn && Justified(Now()) && message.Assistant?
      modifies this, steering, followUp
      ensures Valid() && Later() && old(trace) <= trace && Balances(context', newMessages', [], source, books)
      ensures newMessages + [message] <= newMessages'
      ensures Now() == AfterTurnEnd(old(Now()), newMessages', context', message, hasMoreToolCalls, Now().restarts,
              Now().flow.overlaps)
      ensures Failed(message) || message.calls == [] ==> newMessages' == newMessages + [message] && !hasMoreToolCalls
      ensures config.toolExecution.Sequential? ==> Overlaps(trace) == old(Overlaps(trace))
    {
      hide Queueing, Reduced, Summarize, Overlaps, Reduce, State, Scan, Ledger, AfterStream, Again, AfterTurnEnd,
        Delivers, Cut;
      ghost var before, tally := Now(), Tallied(Now());
      LedgerHasAll(tally, Queued(), context, newMessages, [], source, books);
      context' := StreamAssistantResponse(context, stream, message);
      LedgerGrows(tally, Queued(), context, context', newMessages, [message], [], source, books);
      ghost var streamed := Now();
      hide Justified;
      context', newMessages', hasMoreToolCalls := FinishTurn(message, context', newMessages, source, books);
      TurnIsOver(before, streamed, newMessages + [message], newMessages', context', message, hasMoreToolCalls, Now());
    }

    /** The rest of the turn: the tool calls of its response, and its end. */
    method FinishTurn(message: Message, context: seq<Message>, newMessages: seq<Message>, ghost source: Origin,
                      ghost books: Books)
      returns (context': seq<Message>, newMessages': seq<Message>, hasMoreToolCalls: bool)
      requires Valid() && Now().phase == InTurn(multiset{}) && message.Assistant?
      requires Balances(context, newMessages + [message], [], source, books)
      requires !Now().flow.goesOn && Justified(Now())
      modifies this, steering, followUp
      ensures Valid() && Later() && old(trace) <= trace && Balances(context', newMessages', [], source, books)
      ensures newMessages + [message] <= newMessages'
      ensures Now() == AfterTurnEnd(old(Now()), newMessages', context', message, hasMoreToolCalls, old(Now()).restarts,
              Now().flow.overlaps)
      ensures Failed(message) || message.calls == [] ==> newMessages' == newMessages + [message] && !hasMoreToolCalls
      ensures config.toolExecution.Sequential? ==> Overlaps(trace) == old(Overlaps(trace))
    {
      hide Queueing, Reduced, Summarize, Overlaps, Reduce, State, Scan, Ledger, AfterTurnEnd, Delivers, Cut;
      ghost var before := Now();
      LedgerHasAll(Tallied(before), Queued(), context, newMessages + [message], [], source, books);
      var results;
      ghost var plans;
      context', newMessages', results, hasMoreToolCalls, plans :=
        AnswerCalls(message, context, newMessages + [message], source, books);
      ghost var answered := Now();
      TurnCarries(newMessages, message, results);
      Answered(before, answered, newMessages', context', results, message, hasMoreToolCalls);
      hide Justified, Batch;
      EndTurn(message, results);
    }

    /**
     The tool calls of a response, unless the model failed; truncated calls are not executed. There is more
     to do exactly if there are results and not every call asked to stop.
     */
    method AnswerCalls(message: Message, context: seq<Message>, newMessages: seq<Message>, ghost source: Origin,
                       ghost books: Books)
      returns (context': seq<Message>, newMessages': seq<Message>, results: seq<Message>, hasMoreToolCalls: bool,
               ghost plans: seq<Plan>)
      requires Valid() && Now().phase == InTurn(multiset{}) && Balances(context, newMessages, [], source, books)
               && message.Assistant? && !Now().flow.goesOn
      modifies this, steering, followUp
      ensures Valid() && Later() && old(trace) <= trace && Balances(context', newMessages', [], source, books)
      ensures Now() == Batch(old(Now()), results, hasMoreToolCalls, Now().flow.overlaps)
      ensures newMessages' == newMessages + results && context' == context + results
      ensures Failed(message) || message.calls == [] ==> results == [] && !hasMoreToolCalls
      ensures !Failed(message) && message.stop.Length? ==>
                && |results| == |message.calls| && (results != [] ==> hasMoreToolCalls)
                && forall i :: 0 <= i < |results| ==> results[i] == ResultMessage(message.calls[i], TRUNCATED)
      ensures !Failed(message) && !message.stop.Length? && message.calls != [] ==>
                && |plans| == |message.calls| && Delivers(message.calls, plans, results, !hasMoreToolCalls, aborted)
                && (old(aborted) ==> Cut(message.calls, plans, results))
      ensures old(InSequence(message.calls)) ==> Overlaps(trace) == old(Overlaps(trace))
    {
      hide Queueing, Reduced, Summarize, Overlaps, Reduce, State, Scan, Ledger, InSequence;
      ghost var tally := Tallied(Now());
      LedgerHasAll(tally, Queued(), context, newMessages, [], source, books);
      AddsNothing(Now());
      context', newMessages', results, hasMoreToolCalls, plans := context, newMessages, [], false, [];
      if !Failed(message) && message.calls != [] {
        var terminate := false;
        if message.stop.Length? {
          results := FailToolCalls(message.calls);
        } else {
          results, terminate, plans := ExecuteToolCalls(message.calls);
        }
        hasMoreToolCalls := !terminate;
        LedgerGrows(tally, Queued(), context, context + results, newMessages, results, [], source, books);
        context', newMessages' := context + results, newMessages + results;
      }
    }

    /** Whatever a model answers. */
    method AnyResponse() returns (stream: seq<StreamEvent>, message: Message)
      ensures message.Assistant?
    {
      stream := *;
      var content: nat, calls: seq<ToolCall>, stop: StopReason := *, *, *;
      message := Assistant(content, calls, stop);
    }

    /** Whatever becomes of the calls of a batch. */
    method AnyPlans(count: nat) returns (plans: seq<Plan>)
      ensures |plans| == count
    {
      plans := [];
      while |plans| < count
        invariant |plans| <= count
      {
        var plan: Plan := *;
        plans := plans + [plan];
      }
    }

    /** The end of a turn carries its response and results. */
    method EndTurn(message: Message, results: seq<Message>)
      requires Valid() && Now().phase == InTurn(multiset{}) && message.Assistant? && Justified(Now())
      requires EndsWith(Now().payloads, [message] + results)
      modifies this, steering, followUp
      ensures Valid() && Later() && trace == old(trace) + [TurnEnd(message, results)]
      ensures Now() == old(Now()).(phase := BetweenTurns, flow := old(Now()).flow.(lastTurn := Some(message)))
    {
      hide Queueing, Reduced, Summarize, Overlaps, Reduce, State, Scan;
      Emit(TurnEnd(message, results));
    }

    /** Whether the configuration or a tool of the batch asks for one call after the other. */
    predicate InSequence(calls: seq<ToolCall>)
      reads this
    {
      config.toolExecution.Sequential? || exists call :: call in calls && call.name in config.sequentialTools
    }

    /** executeToolCalls: sequentially if the configuration or any tool asks for it, so that no two calls overlap. */
    method ExecuteToolCalls(calls: seq<ToolCall>)
      returns (results: seq<Message>, terminate: bool, ghost plans: seq<Plan>)
      requires Valid() && Now().phase == InTurn(multiset{}) && !Now().flow.goesOn
      modifies this, steering, followUp
      ensures Valid() && Later() && old(trace) <= trace
      ensures Now() == Batch(old(Now()), results, results != [] && !terminate, Now().flow.overlaps)
      ensures |plans| == |calls| && Delivers(calls, plans, results, terminate, aborted)
      ensures old(aborted) ==> Cut(calls, plans, results)
      ensures old(InSequence(calls)) ==> Overlaps(trace) == old(Overlaps(trace))
      ensures forall m :: m in results ==> m.ToolResult?
    {
      hide Queueing, Reduced, Summarize, Overlaps, Reduce, State, Scan;
      var chosen := AnyPlans(|calls|);
      plans := chosen;
      if InSequence(calls) {
        results, terminate := ExecuteToolCallsSequential(calls, chosen);
      } else {
        results, terminate := ExecuteToolCallsParallel(calls, chosen);
      }
    }

    /** Since then the run has gone on; what was queued or aborted meanwhile stays so. */
    twostate predicate Onward()
      reads this, steering, followUp
    {
      && initial == old(initial) && config == old(config) && (old(aborted) ==> aborted)
      && old(trace) <= trace && (config.toolExecution.Sequential? ==> Overlaps(trace) == old(Overlaps(trace)))
      && old(steering.enqueued) <= steering.enqueued && old(followUp.enqueued) <= followUp.enqueued
      && old(steering.found) <= steering.found && old(followUp.found) <= followUp.found
    }

    /** Taking messages from the steering queue. */
    method PollSteering(context: seq<Message>, newMessages: seq<Message>, ghost books: Books)
      returns (pending: seq<Message>)
      requires Valid() && Balances(context, newMessages, [], Steering, books)
      modifies this`aborted, steering, followUp
      ensures Valid() && Onward() && Now() == old(Now()) && Balances(context, newMessages, pending, Steering, books)
      ensures |steering.found| == |old(steering.found)| + 1
              && old(steering.messages) <= steering.found[|old(steering.found)|].waiting
      ensures trace == old(trace) && followUp.found == old(followUp.found)
              && PolledLast(steering, |trace|, pending)
      ensures pending == Drained(steering.mode, steering.found[|old(steering.found)|].waiting)
    {
      hide Summarize, Overlaps, Reduce, State, Scan, OfOrigin;
      Await();
      StillWaiting(steering.taken, old(steering.messages), steering.messages);
      pending := steering.Drain(|trace|);
      Await();
    }

    /** Taking messages from the follow-up queue. */
    method PollFollowUps(context: seq<Message>, newMessages: seq<Message>, ghost books: Books)
      returns (pending: seq<Message>)
      requires Valid() && Balances(context, newMessages, [], Steering, books)
      modifies this`aborted, steering, followUp
      ensures Valid() && Onward() && Now() == old(Now()) && Balances(context, newMessages, pending, FollowUp, books)
      ensures trace == old(trace) && steering.found == old(steering.found)
      ensures PolledLast(followUp, |trace|, pending)
      ensures pending == [] && old(PolledLast(steering, |trace|, [])) ==> Exhaustive(|trace|)
    {
      hide Summarize, Overlaps, Reduce, State, Scan, OfOrigin;
      Await();
      pending := followUp.Drain(|trace|);
      Await();
    }

    /** The start of every turn but the first: preparation, which may replace the context, and the second poll. */
    method PrepareTurn(context: seq<Message>, newMessages: seq<Message>, pending: seq<Message>, ghost source: Origin,
                       ghost books: Books)
      returns (context': seq<Message>, pending': seq<Message>, ghost source': Origin)
      requires Valid() && Now().phase == BetweenTurns && newMessages != []
      requires Now().flow.lastTurn.Some? && !ToStop(Now())
      requires Balances(context, newMessages, pending, source, books)
      modifies this, steering, followUp
      ensures Valid() && Onward()
      ensures context' == var answer := Answer(config.prepareNextTurn, newMessages);
              if answer.Some? then answer.value else context
      ensures Now() == old(Now()).(phase := InTurn(multiset{}), steered := 0, followed := 0, context := context',
              flow := old(Now()).flow.(goesOn := false, wanted := old(Now()).flow.goesOn))
      ensures Balances(context', newMessages, pending', source', books)
      ensures pending != [] ==> pending' == pending && source' == source && steering.found == old(steering.found)
      ensures pending == [] ==>
                && |steering.found| == |old(steering.found)| + 1 && source' == Steering
                && pending' == Drained(steering.mode, steering.found[|old(steering.found)|].waiting)
    {
      hide Queueing, Reduced, Summarize, Overlaps, Reduce, State, Scan, OfOrigin, Drained, Answer, Advance, Ledger,
        ToStop, Step, Carry,
        Collect;
      var answer := Answer(config.prepareNextTurn, newMessages);
      context' := if answer.Some? then answer.value else context;
      pending', source' := PollAgain(context, newMessages, pending, source, books);
      BeginTurn(context, context', newMessages, pending', source', books);
    }

    /** The start of a turn that the last one allows, with the prepared context. */
    method BeginTurn(ghost context: seq<Message>, ghost context': seq<Message>, ghost newMessages: seq<Message>,
                     ghost pending: seq<Message>, ghost source: Origin, ghost books: Books)
      requires Valid() && Now().phase == BetweenTurns && newMessages != []
      requires Now().flow.lastTurn.Some? && !ToStop(Now()) && Balances(context, newMessages, pending, source, books)
      requires context' == var answer := Answer(config.prepareNextTurn, newMessages);
               if answer.Some? then answer.value else context
      modifies this, steering, followUp
      ensures Valid() && Onward() && steering.found == old(steering.found)
      ensures Now() == old(Now()).(phase := InTurn(multiset{}), steered := 0, followed := 0, context := context',
              flow := old(Now()).flow.(goesOn := false, wanted := old(Now()).flow.goesOn))
      ensures Balances(context', newMessages, pending, source, books)
    {
      hide Queueing, Reduced, Summarize, Overlaps, Reduce, State, Scan, Answer, Advance, Ledger, ToStop, Step, Carry,
        Collect;
      LedgerHasAll(Tallied(Now()), Queued(), context, newMessages, pending, source, books);
      LedgerPrepares(Tallied(Now()), Queued(), context, context', newMessages, pending, source, books);
      TurnBegins(Now());
      Emit(TurnStart);
    }

    /** The hook is awaited; then the second poll, only if the first one returned nothing. */
    method PollAgain(context: seq<Message>, newMessages: seq<Message>, pending: seq<Message>, ghost source: Origin,
                     ghost books: Books)
      returns (pending': seq<Message>, ghost source': Origin)
      requires Valid() && Balances(context, newMessages, pending, source, books)
      modifies this`aborted, steering, followUp
      ensures Valid() && Onward() && Now() == old(Now()) && Balances(context, newMessages, pending', source', books)
      ensures pending != [] ==> pending' == pending && source' == source && steering.found == old(steering.found)
      ensures pending == [] ==>
                && |steering.found| == |old(steering.found)| + 1 && source' == Steering
                && pending' == Drained(steering.mode, steering.found[|old(steering.found)|].waiting)
    {
      hide Queueing, Reduced, Summarize, Overlaps, Reduce, State, Scan, OfOrigin, Drained;
      pending', source' := pending, source;
      Await();
      if pending == [] {
        pending' := PollSteering(context, newMessages, books);
        source' := Steering;
      }
    }

    /** One turn: injection, response, tools. */
    method RunTurn(context: seq<Message>, newMessages: seq<Message>, pending: seq<Message>, ghost source: Origin,
                   ghost books: Books)
      returns (context': seq<Message>, newMessages': seq<Message>, hasMoreToolCalls: bool, failed: bool)
      requires Valid() && Now().phase == InTurn(multiset{}) && Balances(context, newMessages, pending, source, books)
      requires pending != [] ==> Room(Now(), source, steering.mode, followUp.mode)
      requires !Now().flow.goesOn && (Now().flow.wanted || pending != [])
      modifies this, steering, followUp
      ensures Valid() && Onward() && Now().phase == BetweenTurns && Now().payloads != []
      ensures Now().flow.goesOn == hasMoreToolCalls && Now().flow.reasoned == old(Now()).flow.reasoned
      ensures Now().flow.lastTurn.Some? && failed == Failed(Now().flow.lastTurn.value)
      ensures Balances(context', newMessages', [], Steering, books)
      ensures Now().neverBoth == (old(Now()).neverBoth && (pending == [] || !Other(old(Now()), source)))
    {
      hide Queueing, Reduced, Summarize, Overlaps, Reduce, State, Scan, Other;
      context', newMessages' := Inject(context, newMessages, pending, source, books);
      context', newMessages', hasMoreToolCalls, failed := Respond(context', newMessages', source, books);
    }

    /** A turn with its preparation, and whether the run ends after it: the model failed or a hook asked to stop. */
    method TakeTurn(first: bool, context: seq<Message>, newMessages: seq<Message>, pending: seq<Message>,
                    ghost source: Origin, ghost books: Books, ghost neverBoth: bool)
      returns (context': seq<Message>, newMessages': seq<Message>, hasMoreToolCalls: bool, stop: bool)
      requires Valid() && Balances(context, newMessages, pending, source, books)
      requires InStep(Now(), first, pending, source, steering.mode, followUp.mode, neverBoth)
      requires first || Now().flow.goesOn || pending != []
      modifies this, steering, followUp
      ensures Valid() && Onward() && Now().phase == BetweenTurns && Now().neverBoth == neverBoth
      ensures Now().flow.goesOn == hasMoreToolCalls && Now().flow.reasoned == old(Now()).flow.reasoned
      ensures Now().flow.lastTurn.Some? && stop == ToStop(Now())
      ensures Now().payloads != [] && Balances(context', newMessages', [], Steering, books)
    {
      hide Queueing, Reduced, Summarize, Overlaps, Reduce, State, Scan, Ledger, Room, Other;
      var toInject := pending;
      ghost var from := source;
      context' := context;
      if !first {
        LedgerHasAll(Tallied(Now()), Queued(), context, newMessages, pending, source, books);
        context', toInject, from := PrepareTurn(context, newMessages, pending, source, books);
        FreshTurn(Now(), toInject, from, steering.mode, followUp.mode);
      }
      context', newMessages', hasMoreToolCalls, stop := RunTurn(context', newMessages, toInject, from, books);
      if !stop {
        LedgerHasAll(Tallied(Now()), Queued(), context', newMessages', [], Steering, books);
        Await();
        stop := newMessages' in config.shouldStopAfterTurn;
      }
    }

    /** The end of the run. */
    method EndRun(context: seq<Message>, newMessages: seq<Message>, ghost books: Books)
      requires Valid() && Now().phase == BetweenTurns && Balances(context, newMessages, [], Steering, books)
      requires Now().flow.goesOn ==> ToStop(Now())
      modifies this, steering, followUp
      ensures Valid() && Onward() && trace == old(trace) + [AgentEnd(newMessages)]
      ensures old(Exhaustive(|trace|)) ==> Exhaustive(|trace| - 1)
      ensures Now() == old(Now()).(phase := After) && Balances(context, newMessages, [], Steering, books)
    {
      hide Queueing, Reduced, Summarize, Overlaps, Reduce, State, Scan, Ledger;
      LedgerHasAll(Tallied(Now()), Queued(), context, newMessages, [], Steering, books);
      Emit(AgentEnd(newMessages));
    }

    /** The poll before the first turn, unless it is to be skipped. */
    method FirstPoll(skip: bool, context: seq<Message>, newMessages: seq<Message>, ghost books: Books)
      returns (pending: seq<Message>, ghost neverBoth: bool)
      requires Valid() && Now().phase == InTurn(multiset{}) && Balances(context, newMessages, [], Steering, books)
      requires Opened(Now().flow)
      requires !skip && steering.mode.OneAtATime? ==> Now().steered == 0
      modifies this`aborted, steering, followUp
      ensures Valid() && Onward() && Now() == old(Now()) && Balances(context, newMessages, pending, Steering, books)
      ensures InStep(Now(), true, pending, Steering, steering.mode, followUp.mode, neverBoth)
      ensures skip || (|steering.found| > |old(steering.found)|
              && old(steering.messages) <= steering.found[|old(steering.found)|].waiting)
      ensures neverBoth == (Now().neverBoth
              && (skip || steering.found[|old(steering.found)|].waiting == [] || Now().followed == 0))
    {
      hide Queueing, Reduced, Summarize, Overlaps, Reduce, State, Scan, Ledger;
      pending, neverBoth := [], Now().neverBoth;
      if !skip {
        pending := PollSteering(context, newMessages, books);
        neverBoth := Now().neverBoth && (pending == [] || Now().followed == 0);
      }
    }

    /**
     runLoop, for at most `fuel` turns. After any number of turns the context is the one that the trace and
     the hook's answers lead to, and the books are balanced; when it finishes nothing is pending. A turn
     injects from both queues exactly if a steering message is waiting at the first poll when the prompts
     already came from the other queue.
     */
    method RunLoop(initialContext: seq<Message>, prompts: seq<Message>, skipInitialPoll: bool, fuel: nat,
                   ghost books: Books)
      returns (finished: bool, context: seq<Message>, newMessages: seq<Message>,
               ghost left: seq<Message>, ghost source: Origin)
      requires Valid() && Now().phase == InTurn(multiset{}) && Opened(Now().flow)
               && Balances(initialContext, prompts, [], Steering, books)
      requires !skipInitialPoll && steering.mode.OneAtATime? ==> Now().steered == 0
      modifies this, steering, followUp
      ensures Valid() && Onward()
      ensures context == LoopContext(initial.messages, config.prepareNextTurn, trace) && newMessages == Payloads(trace)
      ensures Reasoned(trace, config.shouldStopAfterTurn)
      ensures finished && !Stopped(LastTurn(trace), newMessages, config.shouldStopAfterTurn) ==>
                Exhaustive(|trace| - 1)
      ensures skipInitialPoll || (|steering.found| > |old(steering.found)|
              && old(steering.messages) <= steering.found[|old(steering.found)|].waiting)
      ensures Balances(context, newMessages, left, source, books)
      ensures finished ==>
                && Now().phase == After && trace[|trace| - 1] == AgentEnd(newMessages)
                && left == [] && source == Steering && fuel > 0
      ensures !finished && fuel > 0 ==> Now().phase == BetweenTurns
      ensures fuel > 0 ==>
                Now().neverBoth == (old(Now()).neverBoth
                                    && (skipInitialPoll || steering.found[|old(steering.found)|].waiting == []
                                       || old(Now()).followed == 0))
    {
      hide Queueing, Reduced, Summarize, Overlaps, Reduce, State, Scan, Ledger, InStep;
      var pending;
      ghost var neverBoth;
      pending, neverBoth := FirstPoll(skipInitialPoll, initialContext, prompts, books);
      finished, context, newMessages, left, source := RunFrom(initialContext, prompts, pending, fuel, books, neverBoth);
      LedgerHasAll(Tallied(Now()), Queued(), context, newMessages, left, source, books);
      ReadSummary(initial.messages, config, trace);
    }

    /** Both queues were found empty when so many events had been emitted. */
    ghost predicate Exhaustive(at: int)
      reads steering, followUp
    {
      at >= 0 && PolledLast(steering, at, []) && PolledLast(followUp, at, [])
    }

    /** The outer loop: back to the inner loop as long as follow-ups are waiting when it is left. */
    method RunFrom(initialContext: seq<Message>, initialMessages: seq<Message>, initialPending: seq<Message>, fuel: nat,
                   ghost books: Books, ghost neverBoth: bool)
      returns (finished: bool, context: seq<Message>, newMessages: seq<Message>,
               ghost left: seq<Message>, ghost source: Origin)
      requires Valid() && Balances(initialContext, initialMessages, initialPending, Steering, books)
      requires InStep(Now(), true, initialPending, Steering, steering.mode, followUp.mode, neverBoth)
      modifies this, steering, followUp
      ensures Valid() && Onward() && Now().flow.reasoned == old(Now()).flow.reasoned
      ensures finished && !ToStop(Now()) ==> Exhaustive(|trace| - 1)
      ensures Balances(context, newMessages, left, source, books)
      ensures finished ==>
                && Now().phase == After && trace[|trace| - 1] == AgentEnd(newMessages)
                && left == [] && source == Steering && fuel > 0
      ensures !finished && fuel > 0 ==> Now().phase == BetweenTurns
      ensures fuel > 0 ==> Now().neverBoth == neverBoth
    {
      hide Queueing, Reduced, Summarize, Overlaps, Reduce, State, Scan, Ledger, InStep, PolledLast, Exhaustive, Drained,
        ToStop;
      context, newMessages, source := initialContext, initialMessages, Steering;
      var first, pending, turns: nat := true, initialPending, fuel;
      while true
        invariant Valid() && Onward() && Balances(context, newMessages, pending, source, books)
        invariant InStep(Now(), first, pending, source, steering.mode, followUp.mode, neverBoth)
        invariant if first then turns == fuel else turns < fuel && pending != []
        invariant Now().flow.reasoned == old(Now()).flow.reasoned
        decreases turns
      {
        var outcome;
        outcome, context, newMessages, turns, pending, left, source :=
          TurnsAndPoll(first, context, newMessages, pending, source, turns, books, neverBoth);
        if outcome != Paused { return outcome == Ended, context, newMessages, left, source; }
        first := false;
        if pending == [] { break; }
      }
      BetweenSteps(Now(), pending, source, steering.mode, followUp.mode, neverBoth);
      EmptyBooks(Tallied(Now()), Queued(), context, newMessages, books);
      EndRun(context, newMessages, books);
      finished, left, source := true, [], Steering;
    }

    /** One round of the outer loop: the inner loop, and a poll of the follow-ups if that has come to rest. */
    method TurnsAndPoll(first: bool, context: seq<Message>, newMessages: seq<Message>, pending: seq<Message>,
                        ghost source: Origin, fuel: nat, ghost books: Books, ghost neverBoth: bool)
      returns (outcome: LoopOutcome, context': seq<Message>, newMessages': seq<Message>, turns: nat,
               pending': seq<Message>, ghost left: seq<Message>, ghost source': Origin)
      requires Valid() && Balances(context, newMessages, pending, source, books)
      requires InStep(Now(), first, pending, source, steering.mode, followUp.mode, neverBoth)
      requires first || pending != []
      modifies this, steering, followUp
      ensures Valid() && Onward() && turns <= fuel && Now().flow.reasoned == old(Now()).flow.reasoned
      ensures Balances(context', newMessages', if outcome == Paused then pending' else left, source', books)
      ensures outcome == Paused ==>
                && turns < fuel && source' == FollowUp && !Now().flow.goesOn
                && InStep(Now(), false, pending', source', steering.mode, followUp.mode, neverBoth)
                && (pending' == [] ==> Exhaustive(|trace|))
      ensures outcome == Ended ==>
                && turns < fuel && ToStop(Now()) && left == [] && source' == Steering
                && Now().phase == After && trace[|trace| - 1] == AgentEnd(newMessages')
      ensures fuel > 0 || !first ==>
              Now().neverBoth == neverBoth && (outcome == Exhausted ==> Now().phase == BetweenTurns)
    {
      hide Queueing, Reduced, Summarize, Overlaps, Reduce, State, Scan, Ledger, InStep, PolledLast, Exhaustive, Drained,
        ToStop;
      pending' := [];
      outcome, context', newMessages', turns, left, source' :=
        RunTurns(first, context, newMessages, pending, source, fuel, books, neverBoth);
      if outcome == Paused {
        pending' := PollFollowUps(context', newMessages', books);
        source' := FollowUp;
        BetweenSteps(Now(), pending', source', steering.mode, followUp.mode, neverBoth);
      }
    }

    /**
     The inner loop: turns until neither tool calls nor steering messages are left, the run ends, or
     `turns` are used up.
     */
    method RunTurns(firstTurn: bool, initialContext: seq<Message>, initialMessages: seq<Message>,
                    initialPending: seq<Message>,
                    ghost initialSource: Origin, fuel: nat, ghost books: Books, ghost neverBoth: bool)
      returns (outcome: LoopOutcome, context: seq<Message>, newMessages: seq<Message>, turns: nat,
               ghost left: seq<Message>, ghost source: Origin)
      requires Valid() && Balances(initialContext, initialMessages, initialPending, initialSource, books)
      requires InStep(Now(), firstTurn, initialPending, initialSource, steering.mode, followUp.mode, neverBoth)
      requires firstTurn || initialPending != []
      modifies this, steering, followUp
      ensures Valid() && Onward() && turns <= fuel && Now().flow.reasoned == old(Now()).flow.reasoned
      ensures outcome == Paused ==>
                && !Now().flow.goesOn && Now().flow.lastTurn.Some? && !ToStop(Now())
                && PolledLast(steering, |trace|, [])
      ensures outcome == Ended ==> ToStop(Now())
      ensures Balances(context, newMessages, left, source, books)
      ensures outcome != Exhausted ==> turns < fuel && left == [] && source == Steering
      ensures outcome == Ended ==> Now().phase == After && trace[|trace| - 1] == AgentEnd(newMessages)
      ensures fuel > 0 || !firstTurn ==>
              Now().neverBoth == neverBoth
              && (outcome != Ended ==> Now().phase == BetweenTurns && Now().payloads != [])
    {
      hide Queueing, Reduced, Summarize, Overlaps, Reduce, State, Scan, Ledger, InStep, PolledLast, Drained, ToStop;
      context, newMessages, turns := initialContext, initialMessages, fuel;
      var first, pending, hasMoreToolCalls := firstTurn, initialPending, true;
      source := initialSource;
      while hasMoreToolCalls || pending != []
        invariant Valid() && Onward() && Balances(context, newMessages, pending, source, books)
        invariant InStep(Now(), first, pending, source, steering.mode, followUp.mode, neverBoth)
        invariant turns <= fuel && Now().flow.reasoned == old(Now()).flow.reasoned
        invariant if turns == fuel then hasMoreToolCalls && first == firstTurn && (first || pending != [])
                  else !first && source == Steering && hasMoreToolCalls == Now().flow.goesOn
                       && PolledLast(steering, |trace|, pending)
        decreases turns
      {
        if turns == 0 {
          BetweenSteps(Now(), pending, source, steering.mode, followUp.mode, neverBoth);
          return Exhausted, context, newMessages, turns, pending, source;
        }
        turns := turns - 1;
        var ended;
        context, newMessages, hasMoreToolCalls, ended, pending :=
          TurnAndPoll(first, context, newMessages, pending, source, books, neverBoth);
        if ended { return Ended, context, newMessages, turns, [], Steering; }
        first, source := false, Steering;
      }
      BetweenSteps(Now(), pending, source, steering.mode, followUp.mode, neverBoth);
      outcome, left := Paused, pending;
    }

    /** One round of the inner loop: a turn, and then the end of the run or a poll. */
    method TurnAndPoll(first: bool, context: seq<Message>, newMessages: seq<Message>, pending: seq<Message>,
                       ghost source: Origin, ghost books: Books, ghost neverBoth: bool)
      returns (context': seq<Message>, newMessages': seq<Message>, hasMoreToolCalls: bool, ended: bool,
               pending': seq<Message>)
      requires Valid() && Balances(context, newMessages, pending, source, books)
      requires InStep(Now(), first, pending, source, steering.mode, followUp.mode, neverBoth)
      requires first || Now().flow.goesOn || pending != []
      modifies this, steering, followUp
      ensures Valid() && Onward() && Now().flow.reasoned == old(Now()).flow.reasoned
      ensures Balances(context', newMessages', pending', Steering, books)
      ensures ended ==>
                && Now().phase == After && trace[|trace| - 1] == AgentEnd(newMessages') && pending' == []
                && ToStop(Now()) && Now().neverBoth == neverBoth
      ensures !ended ==>
                && InStep(Now(), false, pending', Steering, steering.mode, followUp.mode, neverBoth)
                && hasMoreToolCalls == Now().flow.goesOn && PolledLast(steering, |trace|, pending')
    {
      hide Queueing, Reduced, Summarize, Overlaps, Reduce, State, Scan, Ledger, InStep, PolledLast, Drained, ToStop;
      var stop;
      context', newMessages', hasMoreToolCalls, stop :=
        TakeTurn(first, context, newMessages, pending, source, books, neverBoth);
      ended, pending' := stop, [];
      if stop {
        StillToStop(Now(), After);
        EndRun(context', newMessages', books);
      } else {
        pending' := PollSteering(context', newMessages', books);
        BetweenSteps(Now(), pending', Steering, steering.mode, followUp.mode, neverBoth);
      }
    }

    /** A first turn with a steering message waiting, in which the model fails. */
    method SteeredFirstTurn(context: seq<Message>, newMessages: seq<Message>, ghost books: Books)
      requires Valid() && Now().phase == InTurn(multiset{}) && Balances(context, newMessages, [], Steering, books)
      requires Opened(Now().flow) && Now().steered == 0 && Now().followed > 0 && steering.messages != []
      modifies this, steering, followUp
      ensures Valid() && Now().phase == After && !Now().neverBoth
      ensures (steering.mode.OneAtATime? ==> Now().oneSteered) && (followUp.mode.OneAtATime? ==> Now().oneFollowed)
    {
      hide Queueing, Reduced, Summarize, Overlaps, Reduce, State, Scan;
      var pending;
      ghost var neverBoth;
      pending, neverBoth := FirstPoll(false, context, newMessages, books);
      var context', newMessages' := Inject(context, newMessages, pending, Steering, books);
      var hasMoreToolCalls;
      context', newMessages', hasMoreToolCalls :=
        RespondWith([], Assistant(0, [], Error), context', newMessages', Steering, books);
      EndRun(context', newMessages', books);
    }

    /**
     continue() on follow-ups alone, with a listener of their announcement that steers and a model that
     fails: whatever else the environment does, the first turn injects messages of both queues.
     */
    method ContinueSteered(message: Message)
      requires Ready() && FollowUpsOnly() && From(message, Steering)
      modifies this, steering, followUp
      ensures Valid() && Scan(trace) == Some(After) && !NeverBoth(trace)
      ensures steering.mode.OneAtATime? ==> OnePerTurn(trace, Steering)
      ensures followUp.mode.OneAtATime? ==> OnePerTurn(trace, FollowUp)
    {
      hide OfOrigin, Scan, Reduce, Summarize, Advance, NeverBoth, OnePerTurn, InThisTurn, Payloads, Agent.State, Ledger,
        InStep, Flows;
      var before := messages;
      ghost var steered, followed := steering.taken, followUp.taken;
      var queuedSteering := steering.Drain(|trace|);
      var queuedFollowUps := followUp.Drain(|trace|);
      AllOfOrigin(queuedFollowUps, FollowUp, Steering);
      OpenRun(queuedFollowUps, steered, followed);
      steering.Enqueue(message);
      SteeredFirstTurn(before + queuedFollowUps, queuedFollowUps, Books(steered, followed));
      ReadSummary(initial.messages, config, trace);
    }

    /** No run is active. */
    predicate Idle()
      reads this
    {
      streamingMessage == None && pendingToolCalls == {}
    }

    /**
     What a finished run has left behind. The loop's context is determined by the trace and by what
     prepareNextTurn returned: what the context was last replaced by, and all messages since, exactly if no
     message has started again since.
     */
    twostate predicate Finished(newMessages: seq<Message>, context: seq<Message>, books: Books)
      requires Scan(trace).Some?
      reads this, steering, followUp
    {
      && Scan(trace) == Some(After) && trace[|trace| - 1] == AgentEnd(newMessages) && newMessages == Payloads(trace)
      && messages == old(messages) + newMessages && config == old(config)
      && context == LoopContext(old(messages), config.prepareNextTurn, trace)
      && (var b := LastReplaced(old(messages), config.prepareNextTurn, trace);
          b.mark <= |newMessages| && (context == b.context + newMessages[b.mark..] <==> Restarts(trace) == b.restarts))
      && (NeverReplaced(config.prepareNextTurn, trace) ==>
         (context == old(messages) + newMessages <==> Restarts(trace) == 0))
      && steering.enqueued == books.steered + OfOrigin(newMessages, Steering) + steering.messages
      && followUp.enqueued == books.followed + OfOrigin(newMessages, FollowUp) + followUp.messages
      && (steering.mode.OneAtATime? ==> OnePerTurn(trace, Steering))
      && (followUp.mode.OneAtATime? ==> OnePerTurn(trace, FollowUp))
      && Reasoned(trace, config.shouldStopAfterTurn)
      && (!Stopped(LastTurn(trace), newMessages, config.shouldStopAfterTurn) ==> Exhaustive(|trace| - 1))
      && (config.toolExecution.Sequential? ==> Overlaps(trace) == 0)
    }

    /** runWithLifecycle: a fresh signal, and an empty trace. */
    method BeginRun()
      requires Ready()
      modifies `aborted, `initial, `trace
      ensures Valid() && Ready() && trace == [] && initial == State() && State() == old(State())
    {
      aborted, initial, trace := false, State(), [];
    }

    /** finishRun, which finds something to clear only after a failure. */
    method FinishRun()
      modifies `streamingMessage, `pendingToolCalls
      ensures Idle() && (old(Idle()) ==> unchanged(this))
    {
      streamingMessage, pendingToolCalls := None, {};
    }

    /** The books at the start of a run. */
    lemma Opens(prompts: seq<Message>, before: seq<Message>, books: Books)
      requires Valid() && Announced(Now(), before, prompts)
      requires steering.taken == books.steered + OfOrigin(prompts, Steering)
               && followUp.taken == books.followed + OfOrigin(prompts, FollowUp)
      requires steering.mode.OneAtATime? ==> |OfOrigin(prompts, Steering)| <= 1
      requires followUp.mode.OneAtATime? ==> |OfOrigin(prompts, FollowUp)| <= 1
      ensures Balances(before + prompts, prompts, [], Steering, books)
    {
      hide Summarize, Scan, OfOrigin;
    }

    /** The start of the run and of its first turn. */
    method OpenTurn()
      requires Valid() && trace == []
      modifies this, steering, followUp
      ensures Valid() && Later() && old(trace) <= trace && Announced(Now(), initial.messages, [])
    {
      hide Reduce, State, Summarize, Scan, Payloads;
      EmptySummary(initial.messages, config);
      assert trace == [];
      Emit(AgentStart);
      Emit(TurnStart);
    }

    /** The opening of runAgentLoop: the prompts are announced in the first turn. */
    method Announce(prompts: seq<Message>)
      requires Valid() && trace == [] && initial == State()
      modifies this, steering, followUp
      ensures Valid() && Later() && old(trace) <= trace && Payloads(trace) == prompts
      ensures Announced(Now(), initial.messages, prompts)
    {
      hide Reduce;
      OpenTurn();
      assert prompts[..0] == [];
      for j := 0 to |prompts|
        invariant Valid() && Later() && old(trace) <= trace && Announced(Now(), initial.messages, prompts[..j])
      {
        hide Summarize, Scan, AfterMessage;
        assert prompts[..j + 1] == prompts[..j] + [prompts[j]];
        AnnounceOne(Now(), initial.messages, prompts[..j], prompts[j]);
        EmitMessage(prompts[j]);
      }
      assert prompts[..|prompts|] == prompts;
    }

    /** A run up to its first poll: the prompts are in the trace and in the books. */
    method OpenRun(prompts: seq<Message>, ghost steered: seq<Message>, ghost followed: seq<Message>)
      requires Ready()
      requires steering.taken == steered + OfOrigin(prompts, Steering)
               && followUp.taken == followed + OfOrigin(prompts, FollowUp)
      requires steering.mode.OneAtATime? ==> |OfOrigin(prompts, Steering)| <= 1
      requires followUp.mode.OneAtATime? ==> |OfOrigin(prompts, FollowUp)| <= 1
      requires OfOrigin(prompts, Steering) == [] || OfOrigin(prompts, FollowUp) == []
      modifies this, steering, followUp
      ensures Valid() && steering.found == old(steering.found) && followUp.found == old(followUp.found)
      ensures initial == old(State()) && config == old(config) && Payloads(trace) == prompts
      ensures Balances(old(messages) + prompts, prompts, [], Steering, Books(steered, followed))
      ensures Now().phase == InTurn(multiset{}) && Now().steered == |OfOrigin(prompts, Steering)|
      ensures Opened(Now().flow) && Overlaps(trace) == 0
      ensures Now().neverBoth && (Now().followed == 0 <==> OfOrigin(prompts, FollowUp) == [])
    {
      BeginRun();
      hide Summarize, Scan, Reduce, Payloads, OfOrigin;
      Announce(prompts);
      Opens(prompts, old(messages), Books(steered, followed));
    }

    /**
     runPromptMessages: a run that starts with some messages. A turn injects from both queues exactly if
     they are follow-ups and a steering message is waiting when the run first polls.
     */
    method RunPromptMessages(prompts: seq<Message>, skipInitialPoll: bool, fuel: nat, ghost steered: seq<Message>,
                             ghost followed: seq<Message>)
      returns (finished: bool, newMessages: seq<Message>, context: seq<Message>)
      requires Ready()
      requires steering.taken == steered + OfOrigin(prompts, Steering)
               && followUp.taken == followed + OfOrigin(prompts, FollowUp)
      requires steering.mode.OneAtATime? ==> |OfOrigin(prompts, Steering)| <= if skipInitialPoll then 1 else 0
      requires followUp.mode.OneAtATime? ==> |OfOrigin(prompts, FollowUp)| <= 1
      requires OfOrigin(prompts, Steering) == [] || OfOrigin(prompts, FollowUp) == []
      modifies this, steering, followUp
      ensures Valid()
      ensures skipInitialPoll || |steering.found| > |old(steering.found)|
      ensures old(steering.found) <= steering.found
      ensures finished ==>
                Ready() && Finished(newMessages, context, Books(steered, followed)) && prompts <= newMessages
      ensures finished ==>
                (NeverBoth(trace) <==>
                 skipInitialPoll || steering.found[|old(steering.found)|].waiting == []
                     || OfOrigin(prompts, FollowUp) == [])
    {
      hide Summarize, Scan, Reduce, Payloads, OfOrigin, Ledger, Drained;
      var before := messages;
      ghost var books := Books(steered, followed);
      OpenRun(prompts, steered, followed);
      ghost var announced := trace;
      ghost var left, source;
      finished, context, newMessages, left, source :=
        RunLoop(before + prompts, prompts, skipInitialPoll, fuel, books);
      if finished {
        assert prompts <= Payloads(trace) by { PayloadsPrefix(announced, trace); }
        Settles(newMessages, context, books);
        FinishRun();
      }
    }

    /** handleRunFailure: the failure becomes a message of its own, whatever has been emitted. */
    method HandleRunFailure(error: nat) returns (failure: Message)
      requires Reduced()
      modifies this, steering, followUp
      ensures Reduced() && Later() && trace == old(trace) + FailureEvents(failure)
      ensures failure == Assistant(error, [], if old(aborted) then Aborted else Error)
    {
      hide Reduce, Scan, State;
      failure := Assistant(error, [], if aborted then Aborted else Error);
      ProcessEvents(MessageStart(failure));
      ProcessEvents(MessageEnd(failure));
      ProcessEvents(TurnEnd(failure, []));
      ProcessEvents(AgentEnd([failure]));
    }

    /** What a run does until something throws: it emits, listeners are awaited, and queues may be polled. */
    method RunUntil(emitted: seq<Event>)
      requires Valid() && trace == [] && Scan(emitted).Some?
      modifies this, steering, followUp
      ensures Valid() && initial == old(initial) && config == old(config) && trace == emitted
      ensures old(steering.enqueued) <= steering.enqueued && old(followUp.enqueued) <= followUp.enqueued
    {
      hide Reduce, Scan, State;
      for i := 0 to |emitted|
        invariant Valid() && initial == old(initial) && config == old(config) && trace == emitted[..i]
        invariant old(steering.enqueued) <= steering.enqueued && old(followUp.enqueued) <= followUp.enqueued
      {
        var steered, followed: bool := *, *;
        if steered { var _ := steering.Drain(|trace|); }
        if followed { var _ := followUp.Drain(|trace|); }
        NextFollows(initial.messages, config, emitted, i);
        Emit(emitted[i]);
      }
      assert emitted[..|emitted|] == emitted;
    }

    /**
     runWithLifecycle when something throws out of a run: at any await, so after any events that follow
     the grammar, as those of every run do. The transcript gains what has ended and the failure, the agent
     can run again, and the trace is complete exactly if no tool was running and no user or tool message open
     inside a turn.
     */
    method FailRun(emitted: seq<Event>, error: nat) returns (failure: Message)
      requires Ready() && Scan(emitted).Some?
      modifies this, steering, followUp
      ensures Ready() && trace == emitted + FailureEvents(failure)
      ensures failure.Assistant? && failure.content == error && Failed(failure)
      ensures messages == old(messages) + Payloads(emitted) + [failure] && config == old(config)
      ensures old(steering.enqueued) <= steering.enqueued && old(followUp.enqueued) <= followUp.enqueued
      ensures Scan(trace) == Some(After) <==>
              Scan(emitted) == Some(InTurn(multiset{})) || Scan(emitted) == Some(InMessage(true))
    {
      hide Scan, Reduce, Payloads;
      EmptySummary(messages, config);
      BeginRun();
      RunUntil(emitted);
      failure := HandleRunFailure(error);
      FailureEnds(initial, emitted, failure);
      TranscriptIsPayloads(initial, emitted);
      assert messages == State().messages;
      FinishRun();
    }

    /** After a finished run the agent's transcript has grown by what ended, and finishRun has nothing left to clear. */
    lemma Settles(newMessages: seq<Message>, context: seq<Message>, books: Books)
      requires Valid() && Now().phase == After && initial.streaming == None && initial.pendingToolCalls == {}
      requires Balances(context, newMessages, [], Steering, books)
      ensures Idle() && Scan(trace) == Some(After) && newMessages == Payloads(trace)
              && messages == initial.messages + newMessages
      ensures steering.enqueued == books.steered + OfOrigin(newMessages, Steering) + steering.messages
      ensures followUp.enqueued == books.followed + OfOrigin(newMessages, FollowUp) + followUp.messages
      ensures context == LoopContext(initial.messages, config.prepareNextTurn, trace)
      ensures var b := LastReplaced(initial.messages, config.prepareNextTurn, trace);
              && b.mark <= |newMessages|
              && (context == b.context + newMessages[b.mark..] <==> Restarts(trace) == b.restarts)
      ensures NeverReplaced(config.prepareNextTurn, trace) ==>
              (context == initial.messages + newMessages <==> Restarts(trace) == 0)
      ensures (steering.mode.OneAtATime? ==> OnePerTurn(trace, Steering))
              && (followUp.mode.OneAtATime? ==> OnePerTurn(trace, FollowUp))
      ensures Now().neverBoth == NeverBoth(trace)
    {
      hide Scan, Reduce, Payloads, InThisTurn, OnePerTurn, NeverBoth, OfOrigin, LoopContext, LastReplaced,
        NeverReplaced;
      TranscriptIsPayloads(initial, trace);
      ContextIsTranscript(initial.messages, config.prepareNextTurn, trace);
      assert Idle() by { StateShowsPhase(initial, trace); }
    }

    /**
     runContinuation: a run from the transcript as it is; it throws if there is nothing to answer.
     runAgentLoopContinue opens a run as runAgentLoop does, without prompts.
     */
    method RunContinuation(fuel: nat)
      returns (accepted: bool, finished: bool, newMessages: seq<Message>, context: seq<Message>)
      requires Ready()
      modifies this, steering, followUp
      ensures accepted == (old(messages) != [] && !old(messages)[|old(messages)| - 1].Assistant?)
      ensures if accepted then Valid() else unchanged(this, steering, followUp)
      ensures finished ==>
                && accepted && NeverBoth(trace)
                && Ready() && Finished(newMessages, context, Books(old(steering.taken), old(followUp.taken)))
    {
      accepted, finished, newMessages, context := false, false, [], messages;
      if messages == [] || messages[|messages| - 1].Assistant? { return; }
      accepted := true;
      finished, newMessages, context := RunPromptMessages([], false, fuel, steering.taken, followUp.taken);
    }

    /** Agent.prompt. */
    method Prompt(prompts: seq<Message>, fuel: nat)
      returns (finished: bool, newMessages: seq<Message>, context: seq<Message>)
      requires Ready() && forall m :: m in prompts ==> !From(m, Steering) && !From(m, FollowUp)
      modifies this, steering, followUp
      ensures Valid()
      ensures finished ==>
                && Ready() && Finished(newMessages, context, Books(old(steering.taken), old(followUp.taken)))
                && NeverBoth(trace) && prompts <= newMessages
    {
      NoneOfOrigin(prompts, Steering);
      NoneOfOrigin(prompts, FollowUp);
      finished, newMessages, context := RunPromptMessages(prompts, false, fuel, steering.taken, followUp.taken);
    }

    /** Continuing from an assistant message with follow-ups alone: the run polls for steering at once. */
    predicate FollowUpsOnly()
      reads this, steering, followUp
    {
      && messages != [] && messages[|messages| - 1].Assistant?
      && steering.messages == [] && followUp.messages != []
    }

    /**
     Agent.continue: from an assistant message only queued messages can go on, steering first. Nothing
     is taken from a queue without being injected by the run that follows. No turn injects from both
     queues, except that when follow-ups alone go on the first turn does exactly if a steering message
     is waiting at the run's first poll, which is the second drain of that queue.
     */
    method Continue(fuel: nat)
      returns (accepted: bool, finished: bool, newMessages: seq<Message>, context: seq<Message>)
      requires Ready()
      modifies this, steering, followUp
      ensures if accepted then Valid() else Ready() && unchanged(this)
      ensures accepted == (old(messages) != [] && (!old(messages)[|old(messages)| - 1].Assistant?
              || old(steering.messages) != [] || old(followUp.messages) != []))
      ensures finished ==>
              accepted && Ready() && Finished(newMessages, context, Books(old(steering.taken), old(followUp.taken)))
      ensures finished && old(messages)[|old(messages)| - 1].Assistant? ==>
                (if old(steering.messages) != [] then Drained(steering.mode, old(steering.messages))
                 else Drained(followUp.mode, old(followUp.messages))) <= newMessages
      ensures finished && !old(FollowUpsOnly()) ==> NeverBoth(trace)
      ensures finished && old(FollowUpsOnly()) ==>
                && |steering.found| > |old(steering.found)| + 1
                && (NeverBoth(trace) <==> steering.found[|old(steering.found)| + 1].waiting == [])
    {
      hide Summarize, Scan, Reduce, Payloads, OfOrigin, NeverBoth, OnePerTurn, InThisTurn;
      accepted, finished, newMessages, context := false, false, [], [];
      if messages == [] { return; }
      if !messages[|messages| - 1].Assistant? {
        accepted, finished, newMessages, context := RunContinuation(fuel);
        return;
      }
      ghost var steered, followed := steering.taken, followUp.taken;
      var queuedSteering := steering.Drain(|trace|);
      if queuedSteering != [] {
        AllOfOrigin(queuedSteering, Steering, FollowUp);
        accepted := true;
        finished, newMessages, context := RunPromptMessages(queuedSteering, true, fuel, steered, followed);
        return;
      }
      var queuedFollowUps := followUp.Drain(|trace|);
      if queuedFollowUps != [] {
        AllOfOrigin(queuedFollowUps, FollowUp, Steering);
        accepted := true;
        finished, newMessages, context := RunPromptMessages(queuedFollowUps, false, fuel, steered, followed);
      }
    }
  }

  /** There is such a run: an agent with one queued follow-up, and both queues in one-at-a-time mode. */
  method BothInFirstTurn() returns (agent: Agent)
    ensures agent.Valid() && agent.steering.mode == agent.followUp.mode == OneAtATime
    ensures Scan(agent.trace) == Some(After) && !NeverBoth(agent.trace)
    ensures OnePerTurn(agent.trace, Steering) && OnePerTurn(agent.trace, FollowUp)
  {
    hide Scan, Reduce, Summarize, NeverBoth, OnePerTurn, Agent.State;
    agent := new Agent([Assistant(0, [], Stop)], OneAtATime, OneAtATime, NO_CONFIG);
    agent.followUp.Enqueue(User(FollowUp, 1));
    agent.ContinueSteered(User(Steering, 2));
  }

  lemma StillWaiting(taken: seq<Message>, waiting: seq<Message>, waiting': seq<Message>)
    requires taken + waiting <= taken + waiting'
    ensures waiting <= waiting'
  {
    forall i | 0 <= i < |waiting| ensures waiting[i] == waiting'[i] {
      assert (taken + waiting)[|taken| + i] == (taken + waiting')[|taken| + i];
    }
  }

  /** What has ended stays so. */
  lemma {:induction false} PayloadsPrefix(trace: seq<Event>, trace': seq<Event>)
    requires trace <= trace'
    ensures Payloads(trace) <= Payloads(trace')
  {
    if trace != trace' {
      PayloadsPrefix(trace, trace'[..|trace'| - 1]);
    }
  }

  lemma {:induction false} NoneOfOrigin(messages: seq<Message>, origin: Origin)
    requires forall m :: m in messages ==> !From(m, origin)
    ensures OfOrigin(messages, origin) == []
  {
    if messages != [] { NoneOfOrigin(messages[..|messages| - 1], origin); }
  }

  lemma {:induction false} AllOfOrigin(messages: seq<Message>, origin: Origin, other: Origin)
    requires (forall m :: m in messages ==> From(m, origin)) && other != origin
    ensures OfOrigin(messages, origin) == messages && OfOrigin(messages, other) == []
  {
    if messages != [] {
      var front, last := messages[..|messages| - 1], messages[|messages| - 1];
      AllOfOrigin(front, origin, other);
      assert From(last, origin) && messages == front + [last];
      OfOriginAppend(front, last, origin);
      OfOriginAppend(front, last, other);
      hide OfOrigin;
    }
  }

  /**
   The context that a stream leaves holds the final message and nothing of what was streamed exactly
   if the stream started its message at most once. (A second start leaves the first partial behind.)
   */
  lemma StreamLeavesFinal(context: seq<Message>, stream: seq<StreamEvent>, final: Message)
    ensures |AfterStream(context, stream, final)| == |context|
            + (if BeginCount(stream) == 0 then 1 else BeginCount(stream))
    ensures AfterStream(context, stream, final) == context + [final] <==> BeginCount(stream) <= 1
  {
    StreamGrows(context, false, stream);
    if BeginCount(stream) <= 1 { StreamKeeps(context, context, false, stream); }
  }

  lemma {:induction false} StreamGrows(context: seq<Message>, added: bool, stream: seq<StreamEvent>)
    requires added ==> context != []
    ensures |Streaming(context, added, stream).0| == |context| + BeginCount(stream)
    ensures Streaming(context, added, stream).1 == (added || BeginCount(stream) > 0)
    decreases stream
  {
    if stream != [] && !stream[0].Finish? {
      match stream[0]
      case Begin(m) => StreamGrows(context + [m], true, stream[1..]);
      case Update(m) => StreamGrows(if added then context[|context| - 1 := m] else context, added, stream[1..]);
    }
  }

  /** With one start in all, what stood in the context before the partial message stays as it is. */
  lemma {:induction false} StreamKeeps(base: seq<Message>, context: seq<Message>, added: bool, stream: seq<StreamEvent>)
    requires if added then |context| == |base| + 1 && context[..|base|] == base else context == base
    requires BeginCount(stream) <= if added then 0 else 1
    ensures var r := Streaming(context, added, stream);
            if r.1 then |r.0| == |base| + 1 && r.0[..|base|] == base else r.0 == base
    decreases stream
  {
    if stream != [] && !stream[0].Finish? {
      match stream[0]
      case Begin(m) => StreamKeeps(base, context + [m], true, stream[1..]);
      case Update(m) => StreamKeeps(base, if added then context[|context| - 1 := m] else context, added, stream[1..]);
    }
  }

  /** The summary once some prompts have been announced. */
  ghost predicate Announced(s: Summary, base: seq<Message>, prompts: seq<Message>) {
    var steered, followed := |OfOrigin(prompts, Steering)|, |OfOrigin(prompts, FollowUp)|;
    && s.phase == InTurn(multiset{}) && s.payloads == prompts && s.steered == steered && s.followed == followed
       && s.context == base + prompts && s.flow == Flow(false, None, true, true, 0)
    && s.oneSteered == (steered <= 1) && s.oneFollowed == (followed <= 1)
       && s.neverBoth == (steered == 0 || followed == 0)
  }

  /** Every event of a trace that follows the grammar may come next. */
  lemma NextFollows(base: seq<Message>, config: Config, trace: seq<Event>, i: nat)
    requires Scan(trace).Some? && i < |trace|
    ensures trace[..i + 1] == trace[..i] + [trace[i]] && Scan(trace[..i]).Some?
    ensures Step(Summarize(base, config, trace[..i]).phase, trace[i]).Some?
  {
    hide Scan, Summarize, Payloads, LoopContext, Restarts, InThisTurn, OnePerTurn, NeverBoth, Step;
    ScanPrefix(trace, i);
    ReadSummary(base, config, trace[..i]);
  }

  lemma EmptySummary(base: seq<Message>, config: Config)
    ensures Scan([]).Some?
    ensures Summarize(base, config, []) == Summary(Before, [], 0, 0, true, true, true, 0, base, START, config)
  {
  }

  lemma AnnounceOne(s: Summary, base: seq<Message>, prompts: seq<Message>, m: Message)
    requires Announced(s, base, prompts)
    ensures Announced(AfterMessage(s, m), base, prompts + [m])
  {
    assert base + prompts + [m] == base + (prompts + [m]);
    OfOriginAppend(prompts, m, Steering);
    OfOriginAppend(prompts, m, FollowUp);
    MessageCounts(s, m);
    hide OfOrigin, AfterMessage;
  }

  /** Where runLoop stands at the head of its loops. */
  ghost predicate InStep(s: Summary, first: bool, pending: seq<Message>, source: Origin, steeringMode: QueueMode,
                         followUpMode: QueueMode, neverBoth: bool)
  {
    if first then
      && s.phase == InTurn(multiset{}) && (pending != [] ==> Room(s, source, steeringMode, followUpMode))
      && !s.flow.goesOn && s.flow.wanted
      && neverBoth == (s.neverBoth && (pending == [] || !Other(s, source)))
    else
      && s.phase == BetweenTurns && s.payloads != [] && neverBoth == s.neverBoth
      && s.flow.lastTurn.Some? && !ToStop(s)
  }

  /** After the first turn runLoop stands between turns. */
  lemma BetweenSteps(s: Summary, pending: seq<Message>, source: Origin, steeringMode: QueueMode,
                     followUpMode: QueueMode, neverBoth: bool)
    ensures InStep(s, false, pending, source, steeringMode, followUpMode, neverBoth) <==>
            && s.phase == BetweenTurns && s.payloads != [] && neverBoth == s.neverBoth
            && s.flow.lastTurn.Some? && !ToStop(s)
  {
  }

  lemma FreshTurn(s: Summary, pending: seq<Message>, source: Origin, steeringMode: QueueMode, followUpMode: QueueMode)
    requires s.steered == 0 && s.followed == 0
    ensures Room(s, source, steeringMode, followUpMode) && !Other(s, source)
  {
  }

  lemma EmptyBooks(tally: Tally, q: Queues, context: seq<Message>, newMessages: seq<Message>, books: Books)
    requires Ledger(tally, q, context, newMessages, [], FollowUp, books)
    ensures Ledger(tally, q, context, newMessages, [], Steering, books)
  {
  }

  lemma LedgerHasAll(
    tally: Tally, q: Queues, context: seq<Message>, newMessages: seq<Message>, pending: seq<Message>, source: Origin,
        books: Books)
    requires Ledger(tally, q, context, newMessages, pending, source, books)
    ensures newMessages == tally.messages && context == tally.context
  {
  }

  /** The context may be replaced, as long as the run and the loop agree on it. */
  lemma LedgerPrepares(
    tally: Tally, q: Queues, context: seq<Message>, context': seq<Message>, newMessages: seq<Message>,
    pending: seq<Message>, source: Origin, books: Books)
    requires Ledger(tally, q, context, newMessages, pending, source, books)
    ensures Ledger(tally.(context := context'), q, context', newMessages, pending, source, books)
  {
  }

  lemma {:induction false} OthersAddNothing(messages: seq<Message>, added: seq<Message>, origin: Origin)
    requires forall m :: m in added ==> !m.User?
    ensures OfOrigin(messages + added, origin) == OfOrigin(messages, origin)
  {
    if added == [] {
      assert messages + added == messages;
    } else {
      var front := added[..|added| - 1];
      OthersAddNothing(messages, front, origin);
      assert messages + added == (messages + front) + [added[|added| - 1]];
      OfOriginAppend(messages + front, added[|added| - 1], origin);
    }
  }

  /** Messages of the model and the tools keep the books balanced. */
  lemma LedgerGrows(
    tally: Tally, q: Queues, context: seq<Message>, context': seq<Message>, newMessages: seq<Message>,
    added: seq<Message>, pending: seq<Message>, source: Origin, books: Books)
    requires Ledger(tally, q, context, newMessages, pending, source, books)
    requires forall m :: m in added ==> !m.User?
    ensures Ledger(tally.(messages := newMessages + added, context := context'), q, context', newMessages + added,
                   pending, source, books)
  {
    OthersAddNothing(newMessages, added, Steering);
    OthersAddNothing(newMessages, added, FollowUp);
    hide OfOrigin;
  }

  /** The turn completed last is one to stop after. */
  predicate ToStop(s: Summary) { Stopped(s.flow.lastTurn, s.payloads, s.config.shouldStopAfterTurn) }

  /** The flow of turns once the prompts of a run are announced. */
  predicate Opened(flow: Flow) { flow == Flow(false, None, true, true, 0) }

  /** The summary at the start of a turn that the last one allows. */
  lemma TurnBegins(s: Summary)
    requires s.phase == BetweenTurns && s.flow.lastTurn.Some? && !ToStop(s) && s.payloads != []
    requires (s.oneSteered ==> s.steered <= 1) && (s.oneFollowed ==> s.followed <= 1)
             && (s.neverBoth ==> s.steered == 0 || s.followed == 0)
    ensures var answer := Answer(s.config.prepareNextTurn, s.payloads);
            Step(s.phase, TurnStart).Some?
                && Advance(s, TurnStart) == s.(phase := InTurn(multiset{}), steered := 0, followed := 0,
              context := if answer.Some? then answer.value else s.context,
              flow := s.flow.(goesOn := false, wanted := s.flow.goesOn))
  {
  }

  lemma StillToStop(s: Summary, phase: Phase)
    ensures ToStop(s.(phase := phase)) == ToStop(s)
  {
  }

  /** The turn has something to answer: the prompts, tool results or queued messages. */
  predicate Justified(s: Summary) { s.flow.wanted || s.steered > 0 || s.followed > 0 }

  /** The last drain of a queue came when so many events had been emitted, and took these messages. */
  ghost predicate PolledLast(q: PendingMessageQueue, at: nat, taken: seq<Message>)
    reads q
  {
    && q.found != [] && q.found[|q.found| - 1].at == at
    && taken == Drained(q.mode, q.found[|q.found| - 1].waiting)
  }

  /** The summary at the end of a turn. */
  function AfterTurnEnd(s: Summary, payloads: seq<Message>, context: seq<Message>, message: Message, goesOn: bool,
                        restarts: nat, overlaps: nat): Summary
  {
    s.(phase := BetweenTurns, payloads := payloads, context := context, restarts := restarts,
       flow := s.flow.(goesOn := goesOn, lastTurn := Some(message), overlaps := overlaps))
  }

  lemma Answered(s: Summary, s': Summary, payloads: seq<Message>, context: seq<Message>, results: seq<Message>,
                 message: Message, goesOn: bool)
    requires s' == Batch(s, results, goesOn, s'.flow.overlaps)
    requires payloads == s.payloads + results && context == s.context + results
    ensures s'.phase == s.phase && s'.payloads == payloads && Justified(s') == Justified(s)
    ensures s'.(phase := BetweenTurns, flow := s'.flow.(lastTurn := Some(message))) ==
            AfterTurnEnd(s, payloads, context, message, goesOn, s.restarts, s'.flow.overlaps)
  {
  }

  lemma TurnIsOver(s: Summary, m: Summary, streamed: seq<Message>, payloads: seq<Message>, context: seq<Message>,
                   message: Message, goesOn: bool, s': Summary)
    requires m == s.(payloads := streamed, context := m.context, restarts := m.restarts)
    requires s' == AfterTurnEnd(m, payloads, context, message, goesOn, m.restarts, s'.flow.overlaps)
    ensures s' == AfterTurnEnd(s, payloads, context, message, goesOn, s'.restarts, s'.flow.overlaps)
  {
  }

  lemma TurnCarries(newMessages: seq<Message>, message: Message, results: seq<Message>)
    ensures EndsWith(newMessages + [message] + results, [message] + results)
  {
    assert newMessages + [message] + results == newMessages + ([message] + results);
  }

  /** Whether the turn has already injected a message from the other queue. */
  predicate Other(s: Summary, source: Origin) { if source == Steering then s.followed > 0 else s.steered > 0 }

  /** Whether the turn may still inject a message from the queue it is injecting from. */
  predicate Room(s: Summary, source: Origin, steeringMode: QueueMode, followUpMode: QueueMode) {
    if source == Steering then steeringMode.OneAtATime? ==> s.steered == 0
    else followUpMode.OneAtATime? ==> s.followed == 0
  }

  /**
   The books of a run: the loop's context is the one that the trace leads to; the run's new messages are
   those that have ended; and what was taken from either queue has been injected in order, but for the
   messages about to be.
   */
  ghost predicate Ledger(
    tally: Tally, q: Queues, context: seq<Message>, newMessages: seq<Message>, pending: seq<Message>, source: Origin,
        books: Books)
  {
    && newMessages == tally.messages && context == tally.context
    && q.steered == books.steered + OfOrigin(newMessages, Steering) + (if source == Steering then pending else [])
    && q.followed == books.followed + OfOrigin(newMessages, FollowUp) + (if source == FollowUp then pending else [])
    && !source.Typed? && (forall m :: m in pending ==> From(m, source))
    && (q.steeringMode.OneAtATime? ==> tally.oneSteered && (source == Steering ==> |pending| <= 1))
    && (q.followUpMode.OneAtATime? ==> tally.oneFollowed && (source == FollowUp ==> |pending| <= 1))
  }

  /** A message that starts and ends at once. */
  function AfterMessage(s: Summary, m: Message): Summary
    requires s.phase == InTurn(multiset{})
  {
    Advance(Advance(s, MessageStart(m)), MessageEnd(m))
  }

  lemma InjectOne(
    s: Summary, q: Queues, context: seq<Message>, newMessages: seq<Message>, pending: seq<Message>, source: Origin,
        books: Books)
    requires Ledger(Tallied(s), q, context, newMessages, pending, source, books)
    requires s.phase == InTurn(multiset{}) && pending != [] && Room(s, source, q.steeringMode, q.followUpMode)
    requires (s.oneSteered ==> s.steered <= 1) && (s.oneFollowed ==> s.followed <= 1)
             && (s.neverBoth ==> s.steered == 0 || s.followed == 0)
    ensures var m, s' := pending[0], AfterMessage(s, pending[0]);
            && Ledger(Tallied(s'), q, context + [m], newMessages + [m], pending[1..], source, books)
            && s'.phase == InTurn(multiset{}) && s'.neverBoth == (s.neverBoth && !Other(s, source))
            && Other(s', source) == Other(s, source)
            && (pending[1..] != [] ==> Room(s', source, q.steeringMode, q.followUpMode))
            && s'.flow == s.flow && s'.steered + s'.followed > 0
  {
    var m := pending[0];
    assert From(m, source);
    MessageCounts(s, m);
    var s' := AfterMessage(s, m);
    hide AfterMessage;
    LedgerInjects(Tallied(s), Tallied(s'), q, context, newMessages, pending, source, books);
    hide Ledger;
  }

  lemma LedgerInjects(
    tally: Tally, tally': Tally, q: Queues, context: seq<Message>, newMessages: seq<Message>, pending: seq<Message>,
    source: Origin, books: Books)
    requires Ledger(tally, q, context, newMessages, pending, source, books) && pending != []
    requires tally'.messages == tally.messages + [pending[0]] && tally'.context == tally.context + [pending[0]]
    requires q.steeringMode.OneAtATime? && tally.oneSteered ==> tally'.oneSteered
    requires q.followUpMode.OneAtATime? && tally.oneFollowed ==> tally'.oneFollowed
    ensures Ledger(tally', q, context + [pending[0]], newMessages + [pending[0]], pending[1..], source, books)
  {
    Injected(newMessages, pending, source);
    hide OfOrigin;
  }

  lemma Injected(newMessages: seq<Message>, pending: seq<Message>, source: Origin)
    requires pending != [] && forall m :: m in pending ==> From(m, source)
    ensures OfOrigin(newMessages + [pending[0]], source) + pending[1..] == OfOrigin(newMessages, source) + pending
    ensures forall origin :: origin != source ==>
            OfOrigin(newMessages + [pending[0]], origin) == OfOrigin(newMessages, origin)
  {
    assert pending == [pending[0]] + pending[1..];
    OfOriginAppend(newMessages, pending[0], source);
    forall origin | origin != source
      ensures OfOrigin(newMessages + [pending[0]], origin) == OfOrigin(newMessages, origin)
    {
      OfOriginAppend(newMessages, pending[0], origin);
    }
    hide OfOrigin;
  }

  lemma MessageCounts(s: Summary, m: Message)
    requires s.phase == InTurn(multiset{})
    requires (s.oneSteered ==> s.steered <= 1) && (s.oneFollowed ==> s.followed <= 1)
             && (s.neverBoth ==> s.steered == 0 || s.followed == 0)
    ensures var s' := AfterMessage(s, m);
            && s'.phase == s.phase && s'.payloads == s.payloads + [m] && s'.context == s.context + [m]
            && s'.flow == s.flow
            && s'.steered == s.steered + (if From(m, Steering) then 1 else 0)
            && s'.followed == s.followed + (if From(m, FollowUp) then 1 else 0)
            && s'.oneSteered == (s.oneSteered && s'.steered <= 1)
               && s'.oneFollowed == (s.oneFollowed && s'.followed <= 1)
            && s'.neverBoth == (s.neverBoth && (s'.steered == 0 || s'.followed == 0))
  {
    assert Latest(s.context + [m], m) == s.context + [m];
  }

  /** A summary with some more messages, none of them queued. */
  function Adding(s: Summary, messages: seq<Message>): Summary {
    s.(payloads := s.payloads + messages, context := s.context + messages)
  }

  lemma StreamsOn(s: Summary, s': Summary, added: bool, context: seq<Message>, event: StreamEvent)
    requires s.phase == InTurn(multiset{}) && s' == Streams(s, added, s'.restarts, context)
    requires added ==> context != []
    ensures s'.phase == if added then InMessage(true) else InTurn(multiset{})
    ensures s'.context == context
    ensures var (context', added') := OneMore(context, added, event);
            forall r: nat :: Streams(s', added', r, context') == Streams(s, added', r, context')
    ensures forall a, r: nat, c :: Streams(s, a, r, c).restarts == r && Streams(s, a, r, c).context == c
  {
  }

  lemma AddsMore(s: Summary, messages: seq<Message>, m: Message, goesOn: bool, more: bool)
    ensures var s' := Batch(s, messages, goesOn, s.flow.overlaps);
            && s'.phase == s.phase && s'.flow.goesOn == goesOn && s'.flow.overlaps == s.flow.overlaps
            && Batch(s', [m], more, s.flow.overlaps) == Batch(s, messages + [m], more, s.flow.overlaps)
  {
    assert s.payloads + (messages + [m]) == s.payloads + messages + [m];
    assert s.context + (messages + [m]) == s.context + messages + [m];
  }

  lemma ResultsMore(s: Summary, messages: seq<Message>, m: Message)
    ensures Adding(s, messages).phase == s.phase && Adding(Adding(s, messages), [m]) == Adding(s, messages + [m])
  {
    assert s.payloads + (messages + [m]) == s.payloads + messages + [m];
    assert s.context + (messages + [m]) == s.context + messages + [m];
  }

  lemma AddsNothing(s: Summary)
    ensures Batch(s, [], s.flow.goesOn, s.flow.overlaps) == s
  {
  }

  lemma BatchBegins(s: Summary, s': Summary, goesOn: bool)
    requires s' == s.(flow := s.flow.(goesOn := goesOn, overlaps := s'.flow.overlaps))
    ensures s' == Batch(s, [], goesOn, s'.flow.overlaps)
  {
  }

  lemma ResultAdds(s: Summary, m: Message)
    requires s.phase == InTurn(multiset{}) && !m.User?
    requires (s.oneSteered ==> s.steered <= 1) && (s.oneFollowed ==> s.followed <= 1)
             && (s.neverBoth ==> s.steered == 0 || s.followed == 0)
    ensures AfterMessage(s, m) == Adding(s, [m])
  {
    assert Latest(s.context + [m], m) == s.context + [m];
  }

  lemma LatestOf(context: seq<Message>, m: Message)
    ensures Latest(context + [m], m) == context + [m]
  {
  }

  /** How the inner loop was left; it is exhausted once the turns allowed are used up. */
  datatype LoopOutcome = Paused | Ended | Exhausted

  /** What had been taken from the queues before a run. */
  datatype Books = Books(steered: seq<Message>, followed: seq<Message>)

  /** What a run has made of the events so far, and of its queues. */
  datatype Tally = Tally(messages: seq<Message>, oneSteered: bool, oneFollowed: bool, context: seq<Message>)

  datatype Queues = Queues(steered: seq<Message>, followed: seq<Message>, steeringMode: QueueMode,
      followUpMode: QueueMode)

  function Tallied(s: Summary): Tally {
    Tally(s.payloads, s.oneSteered, s.oneFollowed, s.context)
  }

  /** The summary while a response streams. */
  function Streams(s: Summary, added: bool, restarts: nat, context: seq<Message>): Summary {
    s.(phase := if added then InMessage(true) else s.phase, restarts := restarts, context := context)
  }

  /** A call that has an outcome did not ask to stop. */
  predicate Unfinished(finalized: seq<Option<Outcome>>) {
    exists i :: 0 <= i < |finalized| && finalized[i].Some? && !finalized[i].value.terminate
  }

  predicate SomeGoesOn(outcomes: seq<Outcome>) { exists i :: 0 <= i < |outcomes| && !outcomes[i].terminate }

  /** More calls have outcomes; those that had one keep it. */
  predicate Filled(before: seq<Option<Outcome>>, after: seq<Option<Outcome>>) {
    |before| == |after| && forall i :: 0 <= i < |before| && before[i].Some? ==> after[i] == before[i]
  }

  /** A summary while the calls of a batch run. */
  ghost function Underway(s: Summary, running: multiset<string>, finalized: seq<Option<Outcome>>,
                          overlaps: nat): Summary
  {
    s.(phase := InTurn(running), flow := s.flow.(goesOn := Unfinished(finalized), overlaps := overlaps))
  }

  /** A summary with the results of a batch. */
  function Batch(s: Summary, results: seq<Message>, goesOn: bool, overlaps: nat): Summary {
    Adding(s, results).(flow := s.flow.(goesOn := goesOn, overlaps := overlaps))
  }

  /** Calls that had no outcome are aborted, or have none yet. */
  predicate Skipped(before: seq<Option<Outcome>>, after: seq<Option<Outcome>>) {
    |before| == |after| &&
    forall i :: 0 <= i < |before| && before[i].None? ==> after[i].None? || after[i] == Some(ABORTED)
  }

  lemma SkippedThen(before: seq<Option<Outcome>>, after: seq<Option<Outcome>>, i: nat)
    requires Skipped(before, after) && i < |after|
    ensures Skipped(before, after[i := Some(ABORTED)])
  {
  }

  lemma FilledThen(a: seq<Option<Outcome>>, b: seq<Option<Outcome>>, c: seq<Option<Outcome>>)
    requires Filled(a, b) && Filled(b, c)
    ensures Filled(a, c)
  {
  }

  lemma Untouched(s: Summary, finalized: seq<Option<Outcome>>)
    requires s.phase.InTurn? && s.flow.goesOn == Unfinished(finalized)
    ensures s == Underway(s, s.phase.running, finalized, s.flow.overlaps)
  {
  }

  lemma Ongoing(s: Summary, s': Summary, running: multiset<string>, finalized: seq<Option<Outcome>>)
    requires s' == Underway(s, running, finalized, s'.flow.overlaps)
    ensures s'.phase == InTurn(running) && s'.flow.goesOn == Unfinished(finalized)
    ensures forall r, f, o: nat :: Underway(s', r, f, o) == Underway(s, r, f, o)
    ensures forall r, f, o: nat :: Underway(s, r, f, o).flow.overlaps == o
  {
  }

  lemma MoreOutcomes(finalized: seq<Option<Outcome>>, outcome: Option<Outcome>)
    ensures Unfinished(finalized + [outcome]) <==>
            Unfinished(finalized) || (outcome.Some? && !outcome.value.terminate)
  {
    var finalized' := finalized + [outcome];
    if i :| 0 <= i < |finalized| && finalized[i].Some? && !finalized[i].value.terminate {
      assert finalized'[i] == finalized[i];
    }
    assert finalized'[|finalized|] == outcome;
  }

  lemma OutcomeSet(finalized: seq<Option<Outcome>>, i: nat, outcome: Outcome)
    requires i < |finalized| && finalized[i].None?
    ensures Filled(finalized, finalized[i := Some(outcome)])
    ensures Unfinished(finalized[i := Some(outcome)]) <==> Unfinished(finalized) || !outcome.terminate
  {
    var finalized' := finalized[i := Some(outcome)];
    if j :| 0 <= j < |finalized| && finalized[j].Some? && !finalized[j].value.terminate {
      assert finalized'[j] == finalized[j];
    }
    assert finalized'[i] == Some(outcome);
  }

  lemma OneMoreOutcome(outcomes: seq<Outcome>, outcome: Outcome)
    ensures SomeGoesOn(outcomes + [outcome]) <==> SomeGoesOn(outcomes) || !outcome.terminate
  {
    var outcomes' := outcomes + [outcome];
    if i :| 0 <= i < |outcomes| && !outcomes[i].terminate { assert outcomes'[i] == outcomes[i]; }
    assert outcomes'[|outcomes|] == outcome;
  }

  lemma OneResult(s: Summary, s': Summary, m: Message, goesOn: bool)
    requires s' == s.(flow := s.flow.(goesOn := s.flow.goesOn || goesOn))
    ensures Adding(s', [m]) == Batch(s, [m], s.flow.goesOn || goesOn, s.flow.overlaps)
  {
  }

  lemma NoOutcome()
    ensures !SomeGoesOn([])
  {
  }

  /** The calls so far have had their results, and without an abort their own. */
  ghost predicate Matched(calls: seq<ToolCall>, plans: seq<Plan>, outcomes: seq<Outcome>, results: seq<Message>,
                          aborted: bool)
  {
    && |plans| == |calls| && |results| == |outcomes| <= |calls|
    && (forall i :: 0 <= i < |results| ==> results[i] == ResultMessage(calls[i], outcomes[i]))
    && (!aborted ==> forall i :: 0 <= i < |outcomes| ==> outcomes[i] == plans[i].outcome)
  }

  lemma Delivered(calls: seq<ToolCall>, plans: seq<Plan>, outcomes: seq<Outcome>, results: seq<Message>, aborted: bool)
    requires Matched(calls, plans, outcomes, results, aborted) && (calls != [] ==> outcomes != [])
    requires !aborted ==> |outcomes| == |plans|
    ensures Delivers(calls, plans, results, AllTerminate(outcomes), aborted)
    ensures SomeGoesOn(outcomes) <==> results != [] && !AllTerminate(outcomes)
  {
    if !aborted {
      assert outcomes == Outcomes(plans);
      assert results == BatchResults(calls, plans);
    }
  }

  lemma OutcomesGoOn(finalized: seq<Option<Outcome>>, outcomes: seq<Outcome>)
    requires |outcomes| == |finalized|
    requires forall i :: 0 <= i < |finalized| ==> finalized[i] == Some(outcomes[i])
    ensures SomeGoesOn(outcomes) <==> Unfinished(finalized)
  {
    if i :| 0 <= i < |outcomes| && !outcomes[i].terminate { assert finalized[i] == Some(outcomes[i]); }
    if i :| 0 <= i < |finalized| && finalized[i].Some? && !finalized[i].value.terminate {
      assert !outcomes[i].terminate;
    }
  }

  /** The results of an aborted batch: the first call alone, which is not executed. */
  predicate Cut(calls: seq<ToolCall>, plans: seq<Plan>, results: seq<Message>)
    requires |calls| == |plans|
  {
    results == if calls == [] then [] else [ResultMessage(calls[0], Prepare(plans[0], true).outcome)]
  }

  /** Outcomes recorded without an abort are the calls' own. */
  ghost predicate Agreed(plans: seq<Plan>, finalized: seq<Option<Outcome>>, aborted: bool) {
    && |finalized| <= |plans|
    && (!aborted ==> forall i :: 0 <= i < |finalized| && finalized[i].Some? ==> finalized[i].value == plans[i].outcome)
  }

  lemma AgreedLater(plans: seq<Plan>, finalized: seq<Option<Outcome>>, before: bool, after: bool)
    requires Agreed(plans, finalized, before) && (before ==> after)
    ensures Agreed(plans, finalized, after)
  {
  }

  /** The calls without an outcome yet are those waited for, each once. */
  ghost predicate Awaited(calls: nat, finalized: seq<Option<Outcome>>, waiting: seq<nat>) {
    && |finalized| <= calls
    && (forall p :: 0 <= p < |waiting| ==> waiting[p] < |finalized| && finalized[waiting[p]].None?)
    && (forall i :: 0 <= i < |finalized| && finalized[i].None? ==> i in waiting)
    && (forall p, q :: 0 <= p < q < |waiting| ==> waiting[p] != waiting[q])
  }

  lemma AwaitOne(calls: nat, finalized: seq<Option<Outcome>>, waiting: seq<nat>)
    requires Awaited(calls, finalized, waiting) && |finalized| < calls
    ensures Awaited(calls, finalized + [None], waiting + [|finalized|])
  {
    var i := |finalized|;
    forall j | 0 <= j < i && finalized[j].None? ensures j in waiting + [i] { assert j in waiting; }
    assert (waiting + [i])[|waiting|] == i;
  }

  lemma FinalizeOne(calls: nat, finalized: seq<Option<Outcome>>, waiting: seq<nat>, outcome: Outcome)
    requires Awaited(calls, finalized, waiting) && |finalized| < calls
    ensures Awaited(calls, finalized + [Some(outcome)], waiting)
  {
  }

  lemma AwaitedRemove(calls: nat, finalized: seq<Option<Outcome>>, waiting: seq<nat>, p: nat, outcome: Outcome)
    requires Awaited(calls, finalized, waiting) && p < |waiting|
    ensures waiting[p] < |finalized|
    ensures Awaited(calls, finalized[waiting[p] := Some(outcome)], waiting[..p] + waiting[p + 1..])
  {
    var finalized', rest := finalized[waiting[p] := Some(outcome)], waiting[..p] + waiting[p + 1..];
    forall i | 0 <= i < |finalized'| && finalized'[i].None? ensures i in rest {
      var q :| 0 <= q < |waiting| && waiting[q] == i;
      assert rest[if q < p then q else q - 1] == i;
    }
  }

  lemma InRange(calls: nat, finalized: seq<Option<Outcome>>, waiting: seq<nat>, p: nat)
    requires Awaited(calls, finalized, waiting) && p < |waiting|
    ensures waiting[p] < |finalized| <= calls
  {
  }

  lemma AllAwaited(calls: nat, finalized: seq<Option<Outcome>>)
    requires Awaited(calls, finalized, [])
    ensures forall i :: 0 <= i < |finalized| ==> finalized[i].Some?
  {
  }

  ghost function Names(calls: seq<ToolCall>, indices: seq<nat>): (names: seq<string>)
    ensures |names| == |indices|
    ensures forall p :: 0 <= p < |indices| ==> names[p] == if indices[p] < |calls| then calls[indices[p]].id else ""
  {
    seq(|indices|, p requires 0 <= p < |indices| => if indices[p] < |calls| then calls[indices[p]].id else "")
  }

  /** The ids of some calls, with repetitions. */
  ghost function Ids(calls: seq<ToolCall>, indices: seq<nat>): multiset<string> {
    multiset(Names(calls, indices))
  }

  lemma NoIds(calls: seq<ToolCall>)
    ensures Ids(calls, []) == multiset{} && Awaited(|calls|, [], [])
  {
  }

  lemma IdsAppend(calls: seq<ToolCall>, indices: seq<nat>, i: nat)
    requires i < |calls|
    ensures Ids(calls, indices + [i]) == Ids(calls, indices) + multiset{calls[i].id}
  {
    assert Names(calls, indices + [i]) == Names(calls, indices) + [calls[i].id];
  }

  lemma IdsRemove(calls: seq<ToolCall>, indices: seq<nat>, p: nat)
    requires p < |indices| && indices[p] < |calls|
    ensures calls[indices[p]].id in Ids(calls, indices)
    ensures Ids(calls, indices) - multiset{calls[indices[p]].id} == Ids(calls, indices[..p] + indices[p + 1..])
  {
    var before, after := Names(calls, indices[..p]), Names(calls, indices[p + 1..]);
    assert Names(calls, indices) == before + [calls[indices[p]].id] + after;
    assert Names(calls, indices[..p] + indices[p + 1..]) == before + after;
  }

  type AssistantMessage = m: Message | m.Assistant? witness Assistant(0, [], Stop)

  /** What a model stream yields; the final message comes with the result. */
  datatype StreamEvent = Begin(partial: AssistantMessage) | Update(partial: AssistantMessage) | Finish

  /** How often the message starts before the stream finishes. */
  function BeginCount(stream: seq<StreamEvent>): nat {
    if stream == [] || stream[0].Finish? then 0 else (if stream[0].Begin? then 1 else 0) + BeginCount(stream[1..])
  }

  /** The context while a stream is consumed, and whether a partial message has been added to it. */
  function Streaming(context: seq<Message>, added: bool, stream: seq<StreamEvent>): (r: (seq<Message>, bool))
    requires added ==> context != []
    ensures r.1 ==> r.0 != []
    decreases stream
  {
    if stream == [] || stream[0].Finish? then (context, added)
    else match stream[0]
      case Begin(m) => Streaming(context + [m], true, stream[1..])
      case Update(m) => Streaming(if added then context[|context| - 1 := m] else context, added, stream[1..])
  }

  /** What one event of the stream does to the context. */
  function OneMore(context: seq<Message>, added: bool, event: StreamEvent): (seq<Message>, bool)
    requires added ==> context != []
  {
    match event
    case Begin(m) => (context + [m], true)
    case Update(m) => (if added then context[|context| - 1 := m] else context, added)
    case Finish => (context, added)
  }

  /** What one event of the stream emits. */
  function Emitted(added: bool, event: StreamEvent): seq<Event> {
    match event
    case Begin(m) => [MessageStart(m)]
    case Update(m) => if added then [MessageUpdate(m)] else []
    case Finish => []
  }

  /** What the rest of a stream and the end of the response emit, for any stream. */
  function Emission(added: bool, stream: seq<StreamEvent>, final: Message): seq<Event>
    decreases stream
  {
    if stream == [] || stream[0].Finish? then (if added then [] else [MessageStart(final)]) + [MessageEnd(final)]
    else Emitted(added, stream[0]) + Emission(added || stream[0].Begin?, stream[1..], final)
  }

  lemma AddAssoc(a: seq<Event>, b: seq<Event>, c: seq<Event>)
    ensures a + (b + c) == (a + b) + c
  {
  }

  /** How often the rest of a stream starts the message again. */
  function Again(added: bool, stream: seq<StreamEvent>): nat {
    var count := BeginCount(stream);
    if added || count == 0 then count else count - 1
  }

  /**
   For any stream the trace follows the grammar, and a message starts inside a message as often as the
   stream starts its message again: never exactly if it starts it at most once.
   */
  lemma StreamKeepsGrammar(trace: seq<Event>, stream: seq<StreamEvent>, final: Message)
    requires Scan(trace) == Some(InTurn(multiset{})) && final.Assistant?
    ensures var trace' := trace + Emission(false, stream, final);
            && Scan(trace') == Some(InTurn(multiset{})) && Restarts(trace') == Restarts(trace) + Again(false, stream)
            && (Restarts(trace') == Restarts(trace) <==> BeginCount(stream) <= 1)
  {
    StreamScans(trace, false, stream, final);
  }

  lemma {:induction false} StreamScans(trace: seq<Event>, added: bool, stream: seq<StreamEvent>, final: Message)
    requires Scan(trace) == Some(if added then InMessage(true) else InTurn(multiset{})) && final.Assistant?
    ensures var trace' := trace + Emission(added, stream, final);
            Scan(trace') == Some(InTurn(multiset{})) && Restarts(trace') == Restarts(trace) + Again(added, stream)
    decreases stream
  {
    hide Scan, Restarts;
    if stream == [] || stream[0].Finish? {
      if added {
        assert Emission(added, stream, final) == [MessageEnd(final)];
        ScanSnoc(trace, MessageEnd(final));
      } else {
        ScanSnoc(trace, MessageStart(final));
        ScanSnoc(trace + [MessageStart(final)], MessageEnd(final));
        AddAssoc(trace, [MessageStart(final)], [MessageEnd(final)]);
      }
    } else {
      var emitted, rest := Emitted(added, stream[0]), Emission(added || stream[0].Begin?, stream[1..], final);
      AddAssoc(trace, emitted, rest);
      if emitted == [] {
        assert trace + emitted == trace;
        StreamScans(trace, added, stream[1..], final);
      } else {
        ScanSnoc(trace, emitted[0]);
        StreamScans(trace + emitted, true, stream[1..], final);
      }
    }
  }

  lemma ScanSnoc(trace: seq<Event>, e: Event)
    requires Scan(trace).Some?
    ensures Scan(trace + [e]) == Step(Scan(trace).value, e)
    ensures Restarts(trace + [e]) == Restarts(trace) + if e.MessageStart? && Scan(trace).value.InMessage? then 1 else 0
  {
    assert (trace + [e])[..|trace|] == trace;
  }

  lemma StreamStep(context: seq<Message>, added: bool, stream: seq<StreamEvent>, final: Message)
    requires (added ==> context != []) && stream != [] && !stream[0].Finish?
    ensures var (context', added') := OneMore(context, added, stream[0]);
            && (added' ==> context' != [])
            && Streaming(context, added, stream) == Streaming(context', added', stream[1..])
            && Again(added, stream) == (if added && stream[0].Begin? then 1 else 0) + Again(added', stream[1..])
            && Emission(added, stream, final) == Emitted(added, stream[0]) + Emission(added', stream[1..], final)
  {
  }

  lemma StreamEnds(context: seq<Message>, added: bool, stream: seq<StreamEvent>, final: Message)
    requires (added ==> context != []) && (stream == [] || stream[0].Finish?)
    ensures Finalize(Streaming(context, added, stream), final) == if added then context[|context| - 1 := final]
      else context + [final]
    ensures Emission(added, stream, final) == Emission(added, [], final) && Again(added, stream) == 0
  {
  }

  lemma StreamBegins(context: seq<Message>, stream: seq<StreamEvent>, final: Message)
    ensures AfterStream(context, stream, final) == Finalize(Streaming(context, false, stream), final)
  {
  }

  function Finalize(streamed: (seq<Message>, bool), final: Message): seq<Message>
    requires streamed.1 ==> streamed.0 != []
  {
    if streamed.1 then streamed.0[|streamed.0| - 1 := final] else streamed.0 + [final]
  }

  /** The context that streaming a response leaves, for any stream. */
  function AfterStream(context: seq<Message>, stream: seq<StreamEvent>, final: Message): seq<Message> {
    Finalize(Streaming(context, false, stream), final)
  }
}
