/** One button press: pulses travel breadth-first through the module table,
    each module applying its kind's rule to the pulse it receives.

    `Receive` and `Run` are the reference semantics, in which every pulse in
    flight carries its sender. `Iteration` is the simulator's loop: its queue
    holds only (target, pulse) pairs, and the sender a conjunction needs comes
    from a second FIFO of sender names. Its postcondition is that it computes
    exactly what the reference semantics computes. */
module Propagation {
  import opened Circuit

  /** A pulse in flight: where it goes, its level and who sent it. */
  datatype Event = Event(target: string, pulse: Pulse, sender: string)

  /** The pulse the button sends to the broadcaster. */
  const ButtonPress: Event := Event(BroadcasterName, Low, "button")

  /** The pulses `from` sends: `pulse` to each connection, in order. */
  function Emit(from: string, connections: seq<string>, pulse: Pulse): (sent: seq<Event>)
    ensures |sent| == |connections|
  {
    seq(|connections|, i requires 0 <= i < |connections| => Event(connections[i], pulse, from))
  }

  /** The i-th pulse goes to the i-th connection; all carry the sender's
      name and the one level. */
  lemma EmitPulses(from: string, connections: seq<string>, pulse: Pulse)
    ensures forall i :: 0 <= i < |connections| ==> Emit(from, connections, pulse)[i].target == connections[i]
    ensures forall e :: e in Emit(from, connections, pulse) ==> e.sender == from && e.pulse == pulse
  {
  }

  /** Sending to one more connection appends one pulse at the end. */
  lemma EmitAppend(from: string, connections: seq<string>, next: string, pulse: Pulse)
    ensures Emit(from, connections + [next], pulse) == Emit(from, connections, pulse) + [Event(next, pulse, from)]
  {
  }

  /** What the simulator's queue holds of a sequence of pulses: the sender is dropped. */
  function Untagged(es: seq<Event>): seq<(string, Pulse)>
  {
    seq(|es|, i requires 0 <= i < |es| => (es[i].target, es[i].pulse))
  }

  /** Every pulse in `queue` goes to a module of the table. */
  predicate Deliverable(modules: Modules, queue: seq<Event>)
  {
    forall e :: e in queue ==> e.target in modules
  }

  /** The module table after one pulse is delivered, and what it sends. */
  datatype Reaction = Reaction(modules: Modules, sent: seq<Event>)

  /** The per-kind transition rule for a pulse `e` reaching `e.target`;
      `ReceiveRules` states it kind by kind. */
  function Receive(modules: Modules, e: Event): (r: Reaction)
    requires e.target in modules
    // the kinds and wiring never change; only the receiving module's state may
    ensures SameShape(modules, r.modules)
    ensures forall k :: k in modules && k != e.target ==> r.modules[k] == modules[k]
    // whatever is sent goes from the receiver to its own connections
    ensures forall ev :: ev in r.sent ==> ev.sender == e.target && ev.target in modules[e.target].Connections()
  {
    var name := e.target;
    match modules[name]
    case Broadcaster(connections) =>
      Reaction(modules, Emit(name, connections, e.pulse))
    case FlipFlop(status, connections) =>
      if e.pulse == High then Reaction(modules, [])
      else
        var flipped := Toggle(modules[name]);
        Reaction(modules[name := flipped], Emit(name, connections, if flipped.status then High else Low))
    case Conjunction(history, connections) =>
      var updated := history[e.sender := e.pulse];
      Reaction(modules[name := Conjunction(updated, connections)],
               Emit(name, connections, if AllHigh(updated) then Low else High))
    case Untyped =>
      Reaction(modules, [])
  }

  /** What each kind of module does with a pulse. */
  lemma ReceiveRules(modules: Modules, e: Event)
    requires e.target in modules
    ensures var r := Receive(modules, e);
    // a broadcaster forwards the pulse unchanged to every connection, in order
            && (modules[e.target].Broadcaster? ==>
                  r.modules == modules && r.sent == Emit(e.target, modules[e.target].connections, e.pulse))
    // a sink absorbs every pulse
            && (modules[e.target].Untyped? ==> r == Reaction(modules, []))
    // a flip-flop ignores High entirely
            && (modules[e.target].FlipFlop? && e.pulse == High ==> r == Reaction(modules, []))
    // on Low it flips, then sends High exactly when it is now on
            && (modules[e.target].FlipFlop? && e.pulse == Low ==>
                  && r.modules == modules[e.target := Toggle(modules[e.target])]
                  && r.sent == Emit(e.target, modules[e.target].connections,
                                    if r.modules[e.target].status then High else Low))
    // a conjunction records the sender's level, then sends Low exactly when
    // every recorded input is High
            && (modules[e.target].Conjunction? ==>
                  && r.modules == modules[e.target := modules[e.target].(history := modules[e.target].history[e.sender := e.pulse])]
                  && r.sent == Emit(e.target, modules[e.target].connections,
                                    if AllHigh(r.modules[e.target].history) then Low else High))
  {
  }

  /** The state at the end of a (possibly unfinished) press, with the counts of
      Low and High pulses delivered. `finished` is false when the step bound ran
      out with pulses still in flight. */
  datatype Outcome = Outcome(modules: Modules, low: nat, high: nat, finished: bool)

  /** Delivers the pulses of `queue` in FIFO order, appending what each
      delivery sends, until the queue is empty or `fuel` deliveries are made.
      The simulator's loop has no bound; a cycle of conjunctions may never go quiet. */
  function Run(modules: Modules, queue: seq<Event>, low: nat, high: nat, fuel: nat): (r: Outcome)
    requires Closed(modules) && Deliverable(modules, queue)
    ensures SameShape(modules, r.modules) && Closed(r.modules)
    ensures low <= r.low && high <= r.high
    decreases fuel
  {
    if queue == [] then Outcome(modules, low, high, true)
    else if fuel == 0 then Outcome(modules, low, high, false)
    else
      var e := queue[0];
      var next := Receive(modules, e);
      ClosedSameShape(modules, next.modules);
      Run(next.modules, queue[1..] + next.sent,
          if e.pulse == Low then low + 1 else low,
          if e.pulse == High then high + 1 else high,
          fuel - 1)
  }

  /** Delivering the head pulse leaves a closed table and a deliverable queue. */
  lemma StepDeliverable(modules: Modules, queue: seq<Event>)
    requires Closed(modules) && Deliverable(modules, queue) && queue != []
    ensures var next := Receive(modules, queue[0]);
            Closed(next.modules) && Deliverable(next.modules, queue[1..] + next.sent)
  {
    ClosedSameShape(modules, Receive(modules, queue[0]).modules);
  }

  /** One step of `Run`: the head of the queue is delivered and counted. */
  lemma RunStep(modules: Modules, queue: seq<Event>, low: nat, high: nat, fuel: nat,
                modules': Modules, queue': seq<Event>, low': nat, high': nat, fuel': nat)
    requires Closed(modules) && Deliverable(modules, queue)
    requires Closed(modules') && Deliverable(modules', queue')
    requires queue != [] && fuel > 0
    requires var next := Receive(modules, queue[0]);
             modules' == next.modules && queue' == queue[1..] + next.sent
    requires low' == (if queue[0].pulse == Low then low + 1 else low)
    requires high' == (if queue[0].pulse == High then high + 1 else high)
    requires fuel' == fuel - 1
    ensures Run(modules, queue, low, high, fuel) == Run(modules', queue', low', high', fuel')
  {
  }

  /** One button press: Low from the button to the broadcaster, then run. */
  function Press(modules: Modules, fuel: nat): (r: Outcome)
    requires Closed(modules) && BroadcasterName in modules
    ensures SameShape(modules, r.modules) && Closed(r.modules)
  {
    Run(modules, [ButtonPress], 0, 0, fuel)
  }

  /** The pulses `Run` delivers, in delivery order. */
  function Delivered(modules: Modules, queue: seq<Event>, fuel: nat): seq<Event>
    requires Closed(modules) && Deliverable(modules, queue)
    decreases fuel
  {
    if queue == [] || fuel == 0 then []
    else
      var next := Receive(modules, queue[0]);
      ClosedSameShape(modules, next.modules);
      [queue[0]] + Delivered(next.modules, queue[1..] + next.sent, fuel - 1)
  }

  /** The number of pulses of level `p` in `es`. */
  function Count(es: seq<Event>, p: Pulse): nat
  {
    if es == [] then 0 else (if es[0].pulse == p then 1 else 0) + Count(es[1..], p)
  }

  /** Every delivered pulse is either Low or High. */
  lemma {:induction false} CountsCover(es: seq<Event>)
    ensures Count(es, Low) + Count(es, High) == |es|
  {
    if es != [] {
      CountsCover(es[1..]);
    }
  }

  /** One step of `Delivered`: the head of the queue, then what the rest of
      the run delivers. */
  lemma DeliveredStep(modules: Modules, queue: seq<Event>, fuel: nat, modules': Modules, queue': seq<Event>)
    requires Closed(modules) && Deliverable(modules, queue)
    requires Closed(modules') && Deliverable(modules', queue')
    requires queue != [] && fuel > 0
    requires var next := Receive(modules, queue[0]);
             modules' == next.modules && queue' == queue[1..] + next.sent
    ensures Delivered(modules, queue, fuel) == [queue[0]] + Delivered(modules', queue', fuel - 1)
  {
  }

  /** The counters `Run` returns add the levels of exactly the pulses it
      delivers, one per step. */
  lemma {:induction false} RunCounts(modules: Modules, queue: seq<Event>, low: nat, high: nat, fuel: nat)
    requires Closed(modules) && Deliverable(modules, queue)
    ensures var r := Run(modules, queue, low, high, fuel);
            var trace := Delivered(modules, queue, fuel);
            && r.low == low + Count(trace, Low)
            && r.high == high + Count(trace, High)
    decreases fuel
  {
    if queue != [] && fuel != 0 {
      var e := queue[0];
      var next := Receive(modules, e);
      var low', high' := if e.pulse == Low then low + 1 else low, if e.pulse == High then high + 1 else high;
      var queue' := queue[1..] + next.sent;
      StepDeliverable(modules, queue);
      RunStep(modules, queue, low, high, fuel, next.modules, queue', low', high', fuel - 1);
      DeliveredStep(modules, queue, fuel, next.modules, queue');
      RunCounts(next.modules, queue', low', high', fuel - 1);
      CountsAdd(e, Delivered(next.modules, queue', fuel - 1), low, high, low', high', Run(next.modules, queue', low', high', fuel - 1));
    }
  }

  /** Counting one more delivered pulse. */
  lemma CountsAdd(e: Event, rest: seq<Event>, low: nat, high: nat, low': nat, high': nat, r: Outcome)
    requires low' == (if e.pulse == Low then low + 1 else low) && high' == (if e.pulse == High then high + 1 else high)
    requires r.low == low' + Count(rest, Low) && r.high == high' + Count(rest, High)
    ensures r.low == low + Count([e] + rest, Low) && r.high == high + Count([e] + rest, High)
  {
    assert ([e] + rest)[1..] == rest;
  }

  /** `Run` delivers at most `fuel` pulses, all `fuel` when it stops
      unfinished, and the first is the head of the queue. */
  lemma {:induction false} RunTrace(modules: Modules, queue: seq<Event>, low: nat, high: nat, fuel: nat)
    requires Closed(modules) && Deliverable(modules, queue)
    ensures var r := Run(modules, queue, low, high, fuel);
            var trace := Delivered(modules, queue, fuel);
            && |trace| <= fuel
            && (!r.finished ==> |trace| == fuel)
            && (queue != [] && fuel > 0 ==> trace[0] == queue[0])
    decreases fuel
  {
    if queue != [] && fuel != 0 {
      var e := queue[0];
      var next := Receive(modules, e);
      var low', high' := if e.pulse == Low then low + 1 else low, if e.pulse == High then high + 1 else high;
      var queue' := queue[1..] + next.sent;
      StepDeliverable(modules, queue);
      RunStep(modules, queue, low, high, fuel, next.modules, queue', low', high', fuel - 1);
      DeliveredStep(modules, queue, fuel, next.modules, queue');
      RunTrace(next.modules, queue', low', high', fuel - 1);
      TraceAdd(e, Delivered(next.modules, queue', fuel - 1), fuel, Run(next.modules, queue', low', high', fuel - 1));
    }
  }

  /** Delivering one more pulse before the rest of a run. */
  lemma TraceAdd(e: Event, rest: seq<Event>, fuel: nat, r: Outcome)
    requires fuel > 0 && |rest| <= fuel - 1 && (!r.finished ==> |rest| == fuel - 1)
    ensures var trace := [e] + rest;
            |trace| <= fuel && (!r.finished ==> |trace| == fuel) && trace[0] == e
  {
  }

  /** In one press the two counters add up to the number of pulses delivered,
      and the first of them is the button's Low, so at least one Low is
      counted whenever a step is allowed. */
  lemma PressCounts(modules: Modules, fuel: nat)
    requires Closed(modules) && BroadcasterName in modules
    ensures var r := Press(modules, fuel);
            var trace := Delivered(modules, [ButtonPress], fuel);
            && r.low + r.high == |trace|
            && (fuel > 0 ==> trace[0] == ButtonPress && r.low >= 1)
            && (r.finished ==> fuel > 0)
  {
    RunCounts(modules, [ButtonPress], 0, 0, fuel);
    RunTrace(modules, [ButtonPress], 0, 0, fuel);
    var trace := Delivered(modules, [ButtonPress], fuel);
    CountsCover(trace);
    if fuel > 0 {
      assert trace == [ButtonPress] + trace[1..];
      assert Count(trace, Low) == 1 + Count(trace[1..], Low);
    }
  }

  /** When the broadcaster's key holds a sink (a name only referenced,
      never declared), a press counts the button's Low and nothing else. */
  lemma PressSink(modules: Modules, fuel: nat)
    requires Closed(modules) && BroadcasterName in modules && modules[BroadcasterName].Untyped?
    requires fuel > 0
    ensures Press(modules, fuel) == Outcome(modules, 1, 0, true)
  {
    assert Receive(modules, ButtonPress) == Reaction(modules, []);
    assert [ButtonPress][1..] + [] == [];
    RunStep(modules, [ButtonPress], 0, 0, fuel, modules, [], 1, 0, fuel - 1);
  }

  /** A press that completes has counted the button's Low. */
  lemma PressFinishedLow(modules: Modules, fuel: nat)
    requires Closed(modules) && BroadcasterName in modules
    ensures Press(modules, fuel).finished ==> Press(modules, fuel).low >= 1
  {
    PressCounts(modules, fuel);
  }

  /** Whether `name` is a conjunction of the table. */
  predicate IsConjunction(modules: Modules, name: string)
  {
    name in modules && modules[name].Conjunction?
  }

  /** The senders of the pulses of `es` that go to conjunctions, in order: what
      the simulator's side queue must hold for its pops to match its queue. */
  function ConjunctionSenders(modules: Modules, es: seq<Event>): seq<string>
  {
    if es == [] then []
    else (if IsConjunction(modules, es[0].target) then [es[0].sender] else [])
         + ConjunctionSenders(modules, es[1..])
  }

  lemma {:induction false} ConjunctionSendersAppend(modules: Modules, a: seq<Event>, b: seq<Event>)
    ensures ConjunctionSenders(modules, a + b) == ConjunctionSenders(modules, a) + ConjunctionSenders(modules, b)
  {
    if a != [] {
      assert (a + b)[0] == a[0];
      assert (a + b)[1..] == a[1..] + b;
      ConjunctionSendersAppend(modules, a[1..], b);
    } else {
      assert a + b == b;
    }
  }

  /** Which modules are conjunctions depends only on the shape of the table. */
  lemma {:induction false} ConjunctionSendersSameShape(a: Modules, b: Modules, es: seq<Event>)
    requires SameShape(a, b)
    ensures ConjunctionSenders(a, es) == ConjunctionSenders(b, es)
  {
    if es != [] {
      if es[0].target in a {
        assert SameKind(a[es[0].target], b[es[0].target]);
      }
      ConjunctionSendersSameShape(a, b, es[1..]);
    }
  }

  lemma UntaggedAppend(a: seq<Event>, b: seq<Event>)
    ensures Untagged(a + b) == Untagged(a) + Untagged(b)
  {
  }

  /** Appends (connection, pulse) to the queue for every connection, in order
      (the `q.append` loops of each kind's branch). */
  method Enqueue(q: seq<(string, Pulse)>, connections: seq<string>, pulse: Pulse, ghost from: string)
    returns (q': seq<(string, Pulse)>)
    ensures q' == q + Untagged(Emit(from, connections, pulse))
  {
    q' := q;
    for i := 0 to |connections|
      invariant q' == q + Untagged(Emit(from, connections[..i], pulse))
    {
      assert connections[..i + 1] == connections[..i] + [connections[i]];
      EmitAppend(from, connections[..i], connections[i], pulse);
      UntaggedAppend(Emit(from, connections[..i], pulse), [Event(connections[i], pulse, from)]);
      q' := q' + [(connections[i], pulse)];
    }
    assert connections[..|connections|] == connections;
  }

  /** Appends `name` to the side queue once per connection that is a
      conjunction, in order (the loop that closes every step of the simulator's
      loop). The side queue does not record the level, so `pulse` is ghost. */
  method NoteConjunctionSenders(senders: seq<string>, name: string, connections: seq<string>,
                                modules: Modules, ghost pulse: Pulse)
    returns (senders': seq<string>)
    requires forall c :: c in connections ==> c in modules
    ensures senders' == senders + ConjunctionSenders(modules, Emit(name, connections, pulse))
  {
    senders' := senders;
    for i := 0 to |connections|
      invariant senders' == senders + ConjunctionSenders(modules, Emit(name, connections[..i], pulse))
    {
      var single := [Event(connections[i], pulse, name)];
      assert connections[..i + 1] == connections[..i] + [connections[i]];
      EmitAppend(name, connections[..i], connections[i], pulse);
      ConjunctionSendersAppend(modules, Emit(name, connections[..i], pulse), single);
      assert ConjunctionSenders(modules, single)
          == (if IsConjunction(modules, connections[i]) then [name] else []) + ConjunctionSenders(modules, []);
      if modules[connections[i]].Conjunction? {
        senders' := senders' + [name];
      }
    }
    assert connections[..|connections|] == connections;
  }

  /** The body of the simulator's loop for one dequeued (name, pulse): the
      kind's rule, the `q.append` loop of its branch, and the loop that
      appends `name` to the side queue once per conjunction connection. A
      conjunction pops its sender from the side queue first. Flip-flops on
      High and sinks leave both queues alone (the simulator's `continue`).
      `sender` is the sender the reference semantics carries with the pulse. */
  method Dispatch(config: Config, name: string, pulse: Pulse, ghost sender: string,
                  q: seq<(string, Pulse)>, conjunctionQueue: seq<string>)
    returns (q': seq<(string, Pulse)>, conjunctionQueue': seq<string>)
    requires Closed(config.modules) && name in config.modules
    requires IsConjunction(config.modules, name) ==> conjunctionQueue != [] && conjunctionQueue[0] == sender
    modifies config
    ensures var r := Receive(old(config.modules), Event(name, pulse, sender));
            && config.modules == r.modules
            && q' == q + Untagged(r.sent)
            && conjunctionQueue' == (if IsConjunction(old(config.modules), name) then conjunctionQueue[1..] else conjunctionQueue)
                                    + ConjunctionSenders(old(config.modules), r.sent)
  {
    ghost var before := config.modules;
    ReceiveRules(before, Event(name, pulse, sender));
    var current := config.modules[name];
    q', conjunctionQueue' := q, conjunctionQueue;
    var forwarded := true;
    var out := pulse;
    if current.Broadcaster? {
      out := pulse;
    } else if current.FlipFlop? {
      if pulse == High {
        forwarded := false;
      } else {
        config.Flip(name);
        out := if config.modules[name].status then High else Low;
      }
    } else if current.Conjunction? {
      var from := conjunctionQueue'[0];
      conjunctionQueue' := conjunctionQueue'[1..];
      config.Record(name, from, pulse);
      out := if AllHigh(config.modules[name].history) then Low else High;
    } else {
      forwarded := false;
    }
    if forwarded {
      q' := Enqueue(q', current.Connections(), out, name);
      ConjunctionSendersSameShape(before, config.modules, Emit(name, current.Connections(), out));
      conjunctionQueue' := NoteConjunctionSenders(conjunctionQueue', name, current.Connections(), config.modules, out);
    }
  }

  /** The relation the simulator's loop keeps between its two queues and the
      pulses in flight `pending` (which carry their senders): the queue is
      `pending` without senders, and the side queue holds, in order, the
      senders of exactly those pending pulses that go to conjunctions. */
  ghost predicate Aligned(start: Modules, modules: Modules, pending: seq<Event>,
                          q: seq<(string, Pulse)>, conjunctionQueue: seq<string>)
  {
    && SameShape(start, modules) && Closed(modules)
    && Deliverable(modules, pending)
    && q == Untagged(pending)
    && conjunctionQueue == ConjunctionSenders(start, pending)
  }

  /** While aligned, the head of the queue is the head pulse without its
      sender, and when it goes to a conjunction the side queue is non-empty
      and its head is that pulse's sender: the pop never fails and pairs the
      pulse with the module that sent it. */
  lemma AlignedHead(start: Modules, modules: Modules, pending: seq<Event>,
                    q: seq<(string, Pulse)>, conjunctionQueue: seq<string>)
    requires Aligned(start, modules, pending, q, conjunctionQueue) && pending != []
    ensures q != [] && q[0] == (pending[0].target, pending[0].pulse)
    ensures IsConjunction(modules, pending[0].target) ==>
              conjunctionQueue != [] && conjunctionQueue[0] == pending[0].sender
  {
    ConjunctionSendersSameShape(start, modules, pending);
  }

  /** Popping the head pulse and appending what it sends, on both queues. */
  lemma QueueStep(pending: seq<Event>, sent: seq<Event>, q: seq<(string, Pulse)>, q': seq<(string, Pulse)>)
    requires pending != [] && q == Untagged(pending)
    requires q' == q[1..] + Untagged(sent)
    ensures q' == Untagged(pending[1..] + sent)
  {
    assert q[1..] == Untagged(pending[1..]);
    UntaggedAppend(pending[1..], sent);
  }

  lemma SideQueueStep(start: Modules, modules: Modules, pending: seq<Event>, sent: seq<Event>,
                      conjunctionQueue: seq<string>, conjunctionQueue': seq<string>)
    requires SameShape(start, modules) && pending != []
    requires conjunctionQueue == ConjunctionSenders(start, pending)
    requires conjunctionQueue' == (if IsConjunction(modules, pending[0].target) then conjunctionQueue[1..] else conjunctionQueue)
                                  + ConjunctionSenders(modules, sent)
    ensures conjunctionQueue' == ConjunctionSenders(start, pending[1..] + sent)
  {
    ConjunctionSendersSameShape(start, modules, pending);
    ConjunctionSendersSameShape(start, modules, pending[1..] + sent);
    ConjunctionSendersAppend(modules, pending[1..], sent);
    var rest := ConjunctionSenders(modules, pending[1..]);
    assert conjunctionQueue == (if IsConjunction(modules, pending[0].target) then [pending[0].sender] else []) + rest;
    if IsConjunction(modules, pending[0].target) {
      assert conjunctionQueue[1..] == rest;
    }
  }

  /** Delivering the head pulse keeps the queues aligned: what the simulator's
      loop body does to its two queues is exactly what `Run` does to
      `pending`. */
  lemma AlignedStep(start: Modules, modules: Modules, pending: seq<Event>,
                    q: seq<(string, Pulse)>, conjunctionQueue: seq<string>,
                    q': seq<(string, Pulse)>, conjunctionQueue': seq<string>)
    requires Aligned(start, modules, pending, q, conjunctionQueue) && pending != []
    requires var r := Receive(modules, pending[0]);
             && q' == q[1..] + Untagged(r.sent)
             && conjunctionQueue' == (if IsConjunction(modules, pending[0].target) then conjunctionQueue[1..] else conjunctionQueue)
                                     + ConjunctionSenders(modules, r.sent)
    ensures var r := Receive(modules, pending[0]);
            Aligned(start, r.modules, pending[1..] + r.sent, q', conjunctionQueue')
  {
    var r := Receive(modules, pending[0]);
    ClosedSameShape(modules, r.modules);
    QueueStep(pending, r.sent, q, q');
    SideQueueStep(start, modules, pending, r.sent, conjunctionQueue, conjunctionQueue');
  }

  /** One pass of the simulator's loop: dequeue the head (name, pulse),
      count it, and dispatch it. `pending` is the queue with senders; the
      pass delivers its head exactly as `Receive` does and keeps the queues
      aligned with what is left in flight. */
  method Deliver(config: Config, ghost start: Modules, q: seq<(string, Pulse)>, conjunctionQueue: seq<string>,
                 ghost pending: seq<Event>, low: nat, high: nat)
    returns (q': seq<(string, Pulse)>, conjunctionQueue': seq<string>, ghost pending': seq<Event>,
             low': nat, high': nat)
    requires Aligned(start, config.modules, pending, q, conjunctionQueue) && pending != []
    modifies config
    ensures var r := Receive(old(config.modules), pending[0]);
            && config.modules == r.modules
            && pending' == pending[1..] + r.sent
    ensures low' == (if pending[0].pulse == Low then low + 1 else low)
    ensures high' == (if pending[0].pulse == High then high + 1 else high)
    ensures Aligned(start, config.modules, pending', q', conjunctionQueue')
  {
    ghost var before := config.modules;
    ghost var e := pending[0];
    ghost var reaction := Receive(before, e);
    AlignedHead(start, before, pending, q, conjunctionQueue);
    var name, pulse := q[0].0, q[0].1;
    assert Event(name, pulse, e.sender) == e;
    if pulse == Low {
      low', high' := low + 1, high;
    } else {
      low', high' := low, high + 1;
    }
    q', conjunctionQueue' := Dispatch(config, name, pulse, e.sender, q[1..], conjunctionQueue);
    AlignedStep(start, before, pending, q, conjunctionQueue, q', conjunctionQueue');
    pending' := pending[1..] + reaction.sent;
  }

  /** The simulator's button press over the shared table `config`: a FIFO
      queue of (target, pulse) pairs and a side FIFO of conjunction senders.
      The loop keeps the side queue equal to the senders of the queued pulses
      that go to conjunctions (`Aligned`), so its pop never fails and always
      yields the true sender; hence the press computes exactly the reference
      `Press`. */
  method Iteration(config: Config, fuel: nat) returns (low: nat, high: nat, finished: bool)
    requires Closed(config.modules) && BroadcasterName in config.modules
    // a conjunction under the broadcaster's key would pop the empty side queue
    requires !IsConjunction(config.modules, BroadcasterName)
    modifies config
    ensures Outcome(config.modules, low, high, finished) == Press(old(config.modules), fuel)
  {
    ghost var start := config.modules;
    low, high := 0, 0;
    var q: seq<(string, Pulse)> := [(BroadcasterName, Low)];
    var conjunctionQueue: seq<string> := [];
    ghost var pending: seq<Event> := [ButtonPress];
    ghost var press := Press(start, fuel);
    var steps: nat := 0;
    ghost var remaining: nat := fuel;
    while q != [] && steps < fuel
      invariant steps + remaining == fuel
      invariant Aligned(start, config.modules, pending, q, conjunctionQueue)
      invariant Run(config.modules, pending, low, high, remaining) == press
      decreases remaining
    {
      ghost var before, pending0, low0, high0, remaining0 := config.modules, pending, low, high, remaining;
      q, conjunctionQueue, pending, low, high := Deliver(config, start, q, conjunctionQueue, pending, low, high);
      steps, remaining := steps + 1, remaining - 1;
      StepDeliverable(before, pending0);
      RunStep(before, pending0, low0, high0, remaining0, config.modules, pending, low, high, remaining);
    }
    finished := q == [];
  }
}
