/**
 Watching harness events. Until it is started a watcher buffers what it receives; starting it flushes
 the buffer, and the listener may emit more events while it is called. A script holds what each call
 of the listener will emit, so every statement about all scripts is about every listener.
 */
module Watch {
  datatype Outcome = Completed | Aborted | Failed

  datatype Event = RunStart(lane: string, runId: string) | RunEnd(lane: string, runId: string, outcome: Outcome,
      leafId: string)

  /** A plain first-in-first-out queue: each delivery appends what the listener then emits. */
  function Fifo(queue: seq<Event>, script: seq<seq<Event>>): seq<Event>
    decreases |script|, |queue|
  {
    if queue == [] then []
    else if script == [] then queue
    else [queue[0]] + Fifo(queue[1..] + script[0], script[1..])
  }

  /** What the listener emits over some calls, in order. */
  function Emitted(script: seq<seq<Event>>): seq<Event> {
    if script == [] then [] else script[0] + Emitted(script[1..])
  }

  /** Every buffered event is delivered, then every event emitted meanwhile, in the order in which they were emitted. */
  lemma {:induction false} FifoIsInOrder(queue: seq<Event>, script: seq<seq<Event>>) returns (calls: nat)
    ensures calls <= |script| && Fifo(queue, script) == queue + Emitted(script[..calls])
    ensures calls == |script| || |Fifo(queue, script)| == calls
    decreases |script|, |queue|
  {
    if queue == [] || script == [] {
      calls := 0;
      assert script[..0] == [];
    } else {
      var rest := FifoIsInOrder(queue[1..] + script[0], script[1..]);
      calls := rest + 1;
      assert script[..calls][0] == script[0] && script[..calls][1..] == script[1..][..rest];
      assert queue == [queue[0]] + queue[1..];
    }
  }

  /** Delivering a whole batch before looking at the buffer again comes to the same. */
  lemma {:induction false} BatchIsFifo(batch: seq<Event>, buffered: seq<Event>, script: seq<seq<Event>>)
    ensures var n := if |batch| <= |script| then |batch| else |script|;
            Fifo(batch + buffered, script) == batch + Fifo(buffered + Emitted(script[..n]), script[n..])
    decreases |batch|
  {
    if batch == [] {
      assert batch + buffered == buffered && script[..0] == [] && buffered + [] == buffered && script[0..] == script;
    } else if script == [] {
      assert script[..0] == [] && script[0..] == [] && buffered + [] == buffered;
      assert Fifo(buffered, []) == buffered;
    } else {
      var n := if |batch| <= |script| then |batch| else |script|;
      BatchIsFifo(batch[1..], buffered + script[0], script[1..]);
      assert (batch + buffered)[1..] + script[0] == batch[1..] + (buffered + script[0]);
      assert script[..n][0] == script[0] && script[..n][1..] == script[1..][..n - 1]
             && script[n..] == script[1..][n - 1..];
      assert buffered + script[0] + Emitted(script[1..][..n - 1]) == buffered + Emitted(script[..n]);
      assert batch == [batch[0]] + batch[1..];
    }
  }

  /** One watcher: its buffer and, once started, its listener. */
  class Watcher {
    var started: bool
    var buffered: seq<Event>
    var script: seq<seq<Event>>
    ghost var received: seq<Event>
    ghost var delivered: seq<Event>

    constructor (script: seq<seq<Event>>)
      ensures !started && buffered == [] && received == [] && delivered == [] && this.script == script
    {
      started, buffered, this.script, received, delivered := false, [], script, [], [];
    }

    /** The watcher's share of emit: nothing is lost or reordered, whatever the listener emits in turn. */
    method Receive(e: Event)
      modifies this
      ensures started == old(started)
      ensures !started ==>
                && buffered == old(buffered) + [e] && received == old(received) + [e]
                && delivered == old(delivered) && script == old(script)
      ensures started ==> |script| <= old(|script|) && buffered == old(buffered)
      ensures started && old(received == delivered) ==> received == delivered
      ensures old(received) + [e] <= received && old(delivered) <= delivered
      decreases |script|, 1
    {
      received := received + [e];
      if started {
        Deliver(e);
      } else {
        buffered := buffered + [e];
      }
    }

    /** The listener is called with an event, and emits what the script says. */
    method Deliver(e: Event)
      modifies this
      ensures started == old(started) && |script| <= old(|script|)
      ensures old(received) <= received && old(delivered) + [e] <= delivered
      ensures !started ==>
                && delivered == old(delivered) + [e]
                && script == (if old(script) == [] then [] else old(script)[1..])
                && buffered == old(buffered) + (if old(script) == [] then [] else old(script)[0])
                && received == old(received) + (if old(script) == [] then [] else old(script)[0])
      ensures started ==> buffered == old(buffered)
      ensures started && old(received == delivered + [e]) ==> received == delivered
      decreases |script|, 0
    {
      delivered := delivered + [e];
      if script == [] { return; }
      var emitted := script[0];
      script := script[1..];
      for i := 0 to |emitted|
        invariant started == old(started) && |script| < old(|script|)
        invariant old(received) <= received && old(delivered) + [e] <= delivered
        invariant !started ==>
                    && delivered == old(delivered) + [e] && script == old(script)[1..]
                    && buffered == old(buffered) + emitted[..i] && received == old(received) + emitted[..i]
        invariant started ==> buffered == old(buffered)
        invariant started && old(received == delivered + [e]) ==> received == delivered
      {
        Receive(emitted[i]);
        assert emitted[..i + 1] == emitted[..i] + [emitted[i]];
      }
    }

    /** One round of the flush: a whole batch is delivered while new events are buffered. */
    method DeliverAll(pending: seq<Event>)
      requires !started && buffered == [] && received == delivered + pending && pending != []
      modifies this
      ensures !started && old(received) <= received && received == delivered + buffered
              && delivered == old(delivered) + pending
      ensures var n := if |pending| <= |old(script)| then |pending| else |old(script)|;
              buffered == Emitted(old(script)[..n]) && script == old(script)[n..]
    {
      ghost var before, responses := delivered, script;
      for i := 0 to |pending|
        invariant !started && old(received) <= received
        invariant received == delivered + pending[i..] + buffered
        invariant delivered == before + pending[..i]
        invariant var n := if i <= |responses| then i else |responses|;
                  buffered == Emitted(responses[..n]) && script == responses[n..]
      {
        assert pending[i..] == [pending[i]] + pending[i + 1..] && pending[..i + 1] == pending[..i] + [pending[i]];
        if i < |responses| {
          EmittedOne(responses, i);
        } else {
          assert responses[|responses|..] == [];
        }
        Deliver(pending[i]);
      }
      assert pending[..|pending|] == pending && pending[|pending|..] == [];
    }

    /**
     start: the two-level flush delivers exactly what a first-in-first-out queue would, and ends with
     nothing buffered and everything received delivered.
     */
    method Start()
      requires !started && received == delivered + buffered
      modifies this
      ensures started && buffered == [] && received == delivered
      ensures delivered == old(delivered) + Fifo(old(buffered), old(script))
      ensures old(received) <= received
    {
      while |buffered| > 0
        invariant !started && received == delivered + buffered && old(received) <= received
        invariant old(delivered) + Fifo(old(buffered), old(script)) == delivered + Fifo(buffered, script)
        decreases |script|, |buffered|
      {
        var pending := buffered;
        buffered := [];
        ghost var before, responses := delivered, script;
        DeliverAll(pending);
        FlushOne(before, pending, buffered, responses, script);
      }
      started := true;
    }
  }

  /** One round of the flush. */
  lemma FlushOne(delivered: seq<Event>, pending: seq<Event>, buffered: seq<Event>, responses: seq<seq<Event>>,
                 script: seq<seq<Event>>)
    requires var n := if |pending| <= |responses| then |pending| else |responses|;
             buffered == Emitted(responses[..n]) && script == responses[n..]
    ensures delivered + Fifo(pending, responses) == (delivered + pending) + Fifo(buffered, script)
  {
    hide Fifo, Emitted;
    assert pending + [] == pending && [] + buffered == buffered;
    BatchIsFifo(pending, [], responses);
    var rest := Fifo(buffered, script);
    assert delivered + (pending + rest) == (delivered + pending) + rest;
  }

  lemma {:induction false} EmittedOne(script: seq<seq<Event>>, i: nat)
    requires i < |script|
    ensures Emitted(script[..i + 1]) == Emitted(script[..i]) + script[i]
    ensures script[i..][0] == script[i] && script[i..][1..] == script[i + 1..]
  {
    if i == 0 {
      assert script[..1][1..] == [] && script[..0] == [];
    } else {
      EmittedOne(script[1..], i - 1);
      assert script[..i + 1][1..] == script[1..][..i] && script[..i][1..] == script[1..][..i - 1];
    }
  }
}
