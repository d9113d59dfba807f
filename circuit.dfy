/** The module network of the pulse simulator: the two pulse levels, the four
    kinds of module, and the mutable name-to-module table that the builder
    produces and every button press updates in place. */
module Circuit {

  datatype Option<T> = None | Some(value: T)

  /** A pulse on a wire. */
  datatype Pulse = Low | High

  /** One module. The simulator keys its table by module name and every module's
      own name equals its key, so the name is the key of the map below and not
      a field here. An Untyped sink has no outbound connections. */
  datatype Module =
    | Broadcaster(connections: seq<string>)
    | FlipFlop(status: bool, connections: seq<string>)
    | Conjunction(history: map<string, Pulse>, connections: seq<string>)
    | Untyped
  {
    /** The ordered outbound connection names (empty for a sink). */
    function Connections(): seq<string>
    {
      if Untyped? then [] else connections
    }
  }

  /** The name-to-module table the simulator calls `config`. */
  type Modules = map<string, Module>

  /** The fixed key of the entry point. */
  const BroadcasterName: string := "broadcaster"

  /** A flip-flop after `flip`: its status negated, nothing else touched. */
  function Toggle(m: Module): (r: Module)
    requires m.FlipFlop?
    ensures r.FlipFlop? && r.status == !m.status
    ensures r.connections == m.connections
  {
    m.(status := !m.status)
  }

  /** Two flips restore a flip-flop. */
  lemma ToggleTwice(m: Module)
    requires m.FlipFlop?
    ensures Toggle(Toggle(m)) == m
  {
  }

  /** True when every recorded input of a conjunction last sent High
      (vacuously true of an empty history). */
  predicate AllHigh(history: map<string, Pulse>)
  {
    forall s :: s in history ==> history[s] == High
  }

  /** A history is all High exactly when no input last sent Low. */
  lemma AllHighValues(history: map<string, Pulse>)
    ensures AllHigh(history) <==> Low !in history.Values
  {
    if Low in history.Values {
      var s :| s in history && history[s] == Low;
    }
  }

  /** After recording `pulse` from `sender`, the history is all High exactly
      when that pulse is High and every other input last sent High. */
  lemma AllHighRecord(history: map<string, Pulse>, sender: string, pulse: Pulse)
    ensures AllHigh(history[sender := pulse]) <==>
              pulse == High && forall s :: s in history && s != sender ==> history[s] == High
  {
    var updated := history[sender := pulse];
    if pulse == Low {
      assert updated[sender] == Low;
    } else if !(forall s :: s in history && s != sender ==> history[s] == High) {
      var s :| s in history && s != sender && history[s] != High;
      assert updated[s] == history[s];
    }
  }

  /** Every name in `names` is a key of the table. */
  predicate Within(names: seq<string>, modules: Modules)
  {
    forall c :: c in names ==> c in modules
  }

  /** Every connection of every module names a module of the table, so no
      lookup by a connection name can fail. */
  predicate Closed(modules: Modules)
  {
    forall k :: k in modules ==> Within(modules[k].Connections(), modules)
  }

  /** Two modules of the same kind with the same connections; only the
      per-kind state (status, history) may differ. */
  predicate SameKind(m: Module, n: Module)
  {
    && m.Connections() == n.Connections()
    && m.Broadcaster? == n.Broadcaster?
    && m.FlipFlop? == n.FlipFlop?
    && m.Conjunction? == n.Conjunction?
    && m.Untyped? == n.Untyped?
  }

  /** Two tables with the same names, each bound to a module of the same kind
      and connections. A button press only ever changes module state, so it
      keeps the shape of the table. */
  predicate SameShape(a: Modules, b: Modules)
  {
    a.Keys == b.Keys && forall k :: k in a ==> SameKind(a[k], b[k])
  }

  /** Closure depends only on the shape of the table. */
  lemma ClosedSameShape(a: Modules, b: Modules)
    requires Closed(a) && SameShape(a, b)
    ensures Closed(b)
  {
    forall k, c | k in b && c in b[k].Connections()
      ensures c in b
    {
      assert SameKind(a[k], b[k]);
    }
  }

  /** The simulator's `config` dictionary: one table, owned by the driver and
      updated in place by every button press, so that flip-flop statuses and
      conjunction histories persist from one press to the next. */
  class Config {
    var modules: Modules

    constructor (modules: Modules)
      ensures this.modules == modules
    {
      this.modules := modules;
    }

    /** `flip` on the flip-flop called `name`. */
    method Flip(name: string)
      requires name in modules && modules[name].FlipFlop?
      modifies this
      ensures modules == old(modules)[name := Toggle(old(modules)[name])]
      ensures SameShape(old(modules), modules)
    {
      modules := modules[name := Toggle(modules[name])];
    }

    /** Records in the conjunction called `name` that `sender` last sent
        `pulse`; the other entries of its history are kept. */
    method Record(name: string, sender: string, pulse: Pulse)
      requires name in modules && modules[name].Conjunction?
      modifies this
      ensures name in modules && modules[name].Conjunction?
      ensures modules == old(modules)[name := old(modules)[name].(history := old(modules)[name].history[sender := pulse])]
      ensures SameShape(old(modules), modules)
    {
      var m := modules[name];
      modules := modules[name := m.(history := m.history[sender := pulse])];
    }
  }
}
