/** The network builder: each description line `<prefix><name> -> <a>, <b>, ...`
    becomes a module, then the table is wired: every conjunction learns its
    inputs (all Low), and every referenced but undeclared name becomes a sink. */
module Parsing {
  import opened Circuit

  // ---------------------------------------------------------------------
  // Tokenising a line: `str.split()` with no separator, and comma removal.
  // ---------------------------------------------------------------------

  /** The characters that separate tokens: Unicode white space as Python's
      string `split` understands it. */
  predicate IsSpace(c: char)
  {
    || '\t' <= c <= '\r'
    || '\U{1C}' <= c <= ' '
    || c == '\U{85}' || c == '\U{A0}' || c == '\U{1680}'
    || '\U{2000}' <= c <= '\U{200A}'
    || c == '\U{2028}' || c == '\U{2029}' || c == '\U{202F}' || c == '\U{205F}' || c == '\U{3000}'
  }

  predicate NoSpace(w: string)
  {
    forall i :: 0 <= i < |w| ==> !IsSpace(w[i])
  }

  predicate AllSpace(s: string)
  {
    forall i :: 0 <= i < |s| ==> IsSpace(s[i])
  }

  /** The length of the longest space-free prefix of `s`. */
  function WordLength(s: string): (n: nat)
    ensures n <= |s| && NoSpace(s[..n])
    ensures n < |s| ==> IsSpace(s[n])
  {
    if s == [] || IsSpace(s[0]) then 0 else 1 + WordLength(s[1..])
  }

  /** The maximal runs of non-space characters of `s`, in order. */
  function Split(s: string): (words: seq<string>)
    ensures forall i :: 0 <= i < |words| ==> words[i] != []
    decreases |s|
  {
    if s == [] then []
    else if IsSpace(s[0]) then Split(s[1..])
    else
      var n := WordLength(s);
      [s[..n]] + Split(s[n..])
  }

  /** Every token is free of white space, and there is none exactly when the
      string is all white space. */
  lemma {:induction false} SplitWords(s: string)
    ensures forall i :: 0 <= i < |Split(s)| ==> NoSpace(Split(s)[i])
    ensures Split(s) == [] <==> AllSpace(s)
    decreases |s|
  {
    if s != [] {
      if IsSpace(s[0]) {
        SplitWords(s[1..]);
        assert forall i :: 0 < i < |s| ==> s[i] == s[1..][i - 1];
      } else {
        var n := WordLength(s);
        SplitWords(s[n..]);
      }
    }
  }

  /** Words separated by single spaces. */
  function Join(words: seq<string>): string
  {
    if words == [] then []
    else if |words| == 1 then words[0]
    else words[0] + " " + Join(words[1..])
  }

  lemma {:induction false} WordLengthOf(w: string, rest: string)
    requires NoSpace(w) && (rest == [] || IsSpace(rest[0]))
    ensures WordLength(w + rest) == |w|
  {
    if w != [] {
      assert (w + rest)[1..] == w[1..] + rest;
      WordLengthOf(w[1..], rest);
    }
  }

  /** Splitting words joined by single spaces gives the words back. */
  lemma {:induction false} SplitJoin(words: seq<string>)
    requires forall i :: 0 <= i < |words| ==> words[i] != [] && NoSpace(words[i])
    ensures Split(Join(words)) == words
  {
    if |words| == 1 {
      WordLengthOf(words[0], []);
      assert words[0] + [] == words[0];
      assert words[0][|words[0]|..] == [];
    } else if |words| > 1 {
      var w := words[0];
      var tail := Join(words[1..]);
      var s := w + " " + tail;
      WordLengthOf(w, " " + tail);
      assert s == w + (" " + tail);
      assert s[..|w|] == w;
      assert s[|w|..] == " " + tail;
      assert (" " + tail)[1..] == tail;
      SplitJoin(words[1..]);
    }
  }

  /** A token with every comma removed (the simulator's `replace(",", "")`). */
  function StripCommas(t: string): string
  {
    if t == [] then []
    else (if t[0] == ',' then [] else [t[0]]) + StripCommas(t[1..])
  }

  /** The result holds no comma and every other character of the token, as
      often as the token does. */
  lemma {:induction false} StripCommasRemoves(t: string)
    ensures ',' !in StripCommas(t)
    ensures multiset(StripCommas(t)) == multiset(t)[',' := 0]
  {
    if t != [] {
      assert t == [t[0]] + t[1..];
      StripCommasRemoves(t[1..]);
    }
  }

  /** A token without commas is left as it is, so stripping twice is
      stripping once. */
  lemma {:induction false} StripCommasKeeps(t: string)
    requires ',' !in t
    ensures StripCommas(t) == t
  {
    if t != [] {
      assert t == [t[0]] + t[1..];
      StripCommasKeeps(t[1..]);
    }
  }

  /** No token is left with a comma. */
  lemma StripCommasEach(tokens: seq<string>)
    ensures forall t :: t in tokens ==> ',' !in StripCommas(t)
  {
    forall t | t in tokens
      ensures ',' !in StripCommas(t)
    {
      StripCommasRemoves(t);
    }
  }

  /** Removing commas keeps the order of the other characters. */
  lemma {:induction false} StripCommasAppend(a: string, b: string)
    ensures StripCommas(a + b) == StripCommas(a) + StripCommas(b)
  {
    if a == [] {
      assert a + b == b;
    } else {
      assert (a + b)[0] == a[0];
      assert (a + b)[1..] == a[1..] + b;
      StripCommasAppend(a[1..], b);
    }
  }

  // ---------------------------------------------------------------------
  // Phase 1: one module per line.
  // ---------------------------------------------------------------------

  /** Every line has at least one token; the builder indexes the first token
      of every line and fails on a blank one. */
  predicate Tokenisable(lines: seq<string>)
  {
    forall i :: 0 <= i < |lines| ==> Split(lines[i]) != []
  }

  /** The connections of a tokenised line: every token after the second (the
      arrow), with commas removed. */
  function Targets(tokens: seq<string>): (targets: seq<string>)
    ensures |targets| == if |tokens| <= 2 then 0 else |tokens| - 2
    ensures forall i :: 0 <= i < |targets| ==> targets[i] == StripCommas(tokens[i + 2]) && ',' !in targets[i]
  {
    StripCommasEach(tokens);
    if |tokens| <= 2 then []
    else seq(|tokens| - 2, i requires 0 <= i < |tokens| - 2 => StripCommas(tokens[i + 2]))
  }

  /** The name and fresh module a line declares, chosen by the first character
      of its first token; None for any other first character, which the
      builder skips. A `b` line always declares the broadcaster. */
  function Declaration(line: string): (d: Option<(string, Module)>)
    requires Split(line) != []
    ensures d.Some? <==> Split(line)[0][0] in {'b', '%', '&'}
    ensures d.Some? ==> Fresh(d.value.1)
    ensures Split(line)[0][0] == 'b' ==> d.Some? && d.value.0 == BroadcasterName && d.value.1.Broadcaster?
    ensures Split(line)[0][0] == '%' ==> d.Some? && d.value.0 == Split(line)[0][1..] && d.value.1.FlipFlop?
    ensures Split(line)[0][0] == '&' ==> d.Some? && d.value.0 == Split(line)[0][1..] && d.value.1.Conjunction?
  {
    var tokens := Split(line);
    var head := tokens[0];
    var connections := Targets(tokens);
    if head[0] == 'b' then Some((BroadcasterName, Broadcaster(connections)))
    else if head[0] == '%' then Some((head[1..], FlipFlop(false, connections)))
    else if head[0] == '&' then Some((head[1..], Conjunction(map[], connections)))
    else None
  }

  /** A declared module connects to the line's targets, in order. */
  lemma DeclarationTargets(line: string)
    requires Split(line) != []
    ensures Declaration(line).Some? ==> Declaration(line).value.1.Connections() == Targets(Split(line))
  {
  }

  /** Whether `line` declares a module called `name`. */
  predicate Declares(line: string, name: string)
  {
    Split(line) != [] && Declaration(line).Some? && Declaration(line).value.0 == name
  }

  /** A module as the first phase builds it: declared (not a sink), a
      flip-flop off, a conjunction with an empty history. */
  predicate Fresh(m: Module)
  {
    && !m.Untyped?
    && (m.FlipFlop? ==> !m.status)
    && (m.Conjunction? ==> m.history == map[])
  }

  /** What each line declares, in order. */
  function Declarations(lines: seq<string>): (ds: seq<Option<(string, Module)>>)
    requires Tokenisable(lines)
    ensures |ds| == |lines|
    ensures forall i :: 0 <= i < |ds| ==> ds[i].Some? ==> Fresh(ds[i].value.1)
  {
    seq(|lines|, i requires 0 <= i < |lines| => Declaration(lines[i]))
  }

  /** Stores each declaration in turn, a later one for the same name
      replacing the earlier one. */
  function Store(ds: seq<Option<(string, Module)>>): (d: Modules)
    requires forall i :: 0 <= i < |ds| ==> ds[i].Some? ==> Fresh(ds[i].value.1)
    ensures forall k :: k in d ==> Fresh(d[k])
  {
    if ds == [] then map[]
    else
      var d := Store(ds[..|ds| - 1]);
      match ds[|ds| - 1]
      case None => d
      case Some((name, m)) => d[name := m]
  }

  /** The table after the first phase. */
  function Declared(lines: seq<string>): (d: Modules)
    requires Tokenisable(lines)
    ensures forall k :: k in d ==> Fresh(d[k])
  {
    Store(Declarations(lines))
  }

  /** `Store` binds `k` exactly when some declaration names it. */
  lemma {:induction false} StoreName(ds: seq<Option<(string, Module)>>, k: string)
    requires forall i :: 0 <= i < |ds| ==> ds[i].Some? ==> Fresh(ds[i].value.1)
    ensures k in Store(ds) <==> exists i :: 0 <= i < |ds| && ds[i].Some? && ds[i].value.0 == k
  {
    if ds != [] {
      var n := |ds| - 1;
      var init := ds[..n];
      StoreName(init, k);
      if ds[n].Some? && ds[n].value.0 == k {
        assert k in Store(ds);
      } else {
        if exists i :: 0 <= i < |ds| && ds[i].Some? && ds[i].value.0 == k {
          var i :| 0 <= i < |ds| && ds[i].Some? && ds[i].value.0 == k;
          assert init[i] == ds[i];
        }
        if k in Store(init) {
          var i :| 0 <= i < |init| && init[i].Some? && init[i].value.0 == k;
          assert ds[i] == init[i];
        }
      }
    }
  }

  /** `Store` binds a name to its last declaration. */
  lemma {:induction false} StoreLastWins(ds: seq<Option<(string, Module)>>, i: nat, k: string)
    requires forall j :: 0 <= j < |ds| ==> ds[j].Some? ==> Fresh(ds[j].value.1)
    requires i < |ds| && ds[i].Some? && ds[i].value.0 == k
    requires forall j :: i < j < |ds| ==> !(ds[j].Some? && ds[j].value.0 == k)
    ensures k in Store(ds) && Store(ds)[k] == ds[i].value.1
  {
    var n := |ds| - 1;
    if i < n {
      var init := ds[..n];
      assert !(ds[n].Some? && ds[n].value.0 == k);
      StoreLastWins(init, i, k);
    }
  }

  /** The first phase binds `k` exactly when some line declares it. */
  lemma DeclaredName(lines: seq<string>, k: string)
    requires Tokenisable(lines)
    ensures k in Declared(lines) <==> exists i :: 0 <= i < |lines| && Declares(lines[i], k)
  {
    var ds := Declarations(lines);
    StoreName(ds, k);
    assert forall i :: 0 <= i < |lines| ==> (Declares(lines[i], k) <==> ds[i].Some? && ds[i].value.0 == k);
  }

  /** A name is bound to the module of the last line that declares it: a
      later line for the same name replaces the earlier module. */
  lemma DeclaredLastWins(lines: seq<string>, i: nat, k: string)
    requires Tokenisable(lines)
    requires i < |lines| && Declares(lines[i], k)
    requires forall j :: i < j < |lines| ==> !Declares(lines[j], k)
    ensures k in Declared(lines) && Declared(lines)[k] == Declaration(lines[i]).value.1
  {
    var ds := Declarations(lines);
    assert forall j :: i < j < |lines| ==> !(ds[j].Some? && ds[j].value.0 == k);
    StoreLastWins(ds, i, k);
  }

  // ---------------------------------------------------------------------
  // Phase 2: wiring.
  // ---------------------------------------------------------------------

  /** The modules of `d` that list `name` among their connections. */
  function Senders(d: Modules, name: string): (senders: set<string>)
    ensures senders <= d.Keys
    ensures name !in Referenced(d) ==> senders == {}
  {
    set s | s in d && name in d[s].Connections()
  }

  /** Every name some module of `d` connects to. */
  function Referenced(d: Modules): set<string>
  {
    set k, c | k in d && c in d[k].Connections() :: c
  }

  /** A history recording Low from each of `senders`. */
  function AllLow(senders: set<string>): (h: map<string, Pulse>)
    ensures h.Keys == senders && forall s :: s in h ==> h[s] == Low
  {
    map s | s in senders :: Low
  }

  /** A declared module after wiring: a conjunction records Low from each of
      its senders; any other module is as declared. */
  function Wired(d: Modules, name: string): (m: Module)
    requires name in d
    ensures SameKind(m, d[name])
    ensures !d[name].Conjunction? ==> m == d[name]
    ensures m.Conjunction? ==> m.history.Keys == Senders(d, name)
  {
    if d[name].Conjunction? then d[name].(history := AllLow(Senders(d, name))) else d[name]
  }

  /** The table after the second phase: the declared modules wired, and a
      sink for every referenced name that no line declares. */
  function Wire(d: Modules): (c: Modules)
    ensures d.Keys <= c.Keys
    ensures forall k :: k in d ==> SameKind(c[k], d[k])
    ensures forall k :: k in c && k !in d ==> c[k] == Untyped && k in Referenced(d)
  {
    map k | k in d.Keys + Referenced(d) :: if k in d then Wired(d, k) else Untyped
  }

  /** What the builder returns for `lines`. No connection of it dangles, so
      every lookup a button press makes by a connection name succeeds. */
  function Build(lines: seq<string>): (c: Modules)
    requires Tokenisable(lines)
    ensures Closed(c)
  {
    WireClosed(Declared(lines));
    Wire(Declared(lines))
  }

  /** The built table holds the declared names and every referenced name,
      nothing else; declared modules keep their kind and connections, and the
      other names are sinks. */
  lemma BuildNames(lines: seq<string>)
    requires Tokenisable(lines)
    ensures var d, c := Declared(lines), Build(lines);
            && (forall k :: k in c <==> k in d || k in Referenced(d))
            && (forall k :: k in c ==> if k in d then SameKind(c[k], d[k]) else c[k] == Untyped)
  {
  }

  /** Wiring closes any table: every connection names a declared module
      or a sink added for it. */
  lemma WireClosed(d: Modules)
    ensures Closed(Wire(d))
  {
    var c := Wire(d);
    forall k, x | k in c && x in c[k].Connections()
      ensures x in c
    {
      assert x in d[k].Connections();
    }
  }

  /** In the built table every flip-flop is off, and every conjunction has
      recorded exactly the modules that connect to it, each as Low. */
  lemma BuildInitialState(lines: seq<string>)
    requires Tokenisable(lines)
    ensures var c := Build(lines);
            forall k :: k in c ==>
              && (c[k].FlipFlop? ==> !c[k].status)
              && (c[k].Conjunction? ==> c[k].history == AllLow(Senders(c, k)))
  {
    var d, c := Declared(lines), Build(lines);
    forall k | k in c
      ensures c[k].FlipFlop? ==> !c[k].status
      ensures c[k].Conjunction? ==> c[k].history == AllLow(Senders(c, k))
    {
      SendersWired(d, k);
    }
  }

  /** Wiring adds only sinks, which have no connections, so it finds the
      same senders of a module as the declared table. */
  lemma SendersWired(d: Modules, name: string)
    ensures Senders(Wire(d), name) == Senders(d, name)
  {
    var c := Wire(d);
    forall s | s in Senders(c, name)
      ensures s in Senders(d, name)
    {
      assert s in d;
    }
    forall s | s in Senders(d, name)
      ensures s in Senders(c, name)
    {
      assert c[s].Connections() == d[s].Connections();
    }
  }

  // ---------------------------------------------------------------------
  // The builder itself, updating one table in place as the simulator does.
  // ---------------------------------------------------------------------

  /** Two tables binding the same names to modules with the same
      connections (histories may differ). */
  predicate SameWiring(a: Modules, b: Modules)
  {
    a.Keys == b.Keys && forall k :: k in a ==> a[k].Connections() == b[k].Connections()
  }

  /** Senders depend only on the connections. */
  lemma SendersSameWiring(a: Modules, b: Modules, name: string)
    requires SameWiring(a, b)
    ensures Senders(a, name) == Senders(b, name)
  {
  }

  /** The inner loop over the whole table that teaches the conjunction
      `name` its inputs: every module listing `name` is recorded as Low, on
      top of what the history already holds. */
  method LearnInputs(config: Modules, name: string) returns (config': Modules)
    requires name in config && config[name].Conjunction?
    ensures config' == config[name := config[name].(history := config[name].history + AllLow(Senders(config, name)))]
  {
    var m := config[name];
    config' := config;
    var others := config.Keys;
    var history := m.history;
    assert Senders(config, name) - others == {};
    assert m.history + AllLow({}) == m.history;
    while others != {}
      invariant others <= config.Keys
      invariant history == m.history + AllLow(Senders(config, name) - others)
      invariant config' == config[name := m.(history := history)]
      decreases others
    {
      var name2 :| name2 in others;
      ghost var learned := Senders(config, name) - others;
      if name in config[name2].Connections() {
        assert Senders(config, name) - (others - {name2}) == learned + {name2};
        LearnOne(m.history, learned, name2);
        history := history[name2 := Low];
        config' := config'[name := config'[name].(history := history)];
      } else {
        assert Senders(config, name) - (others - {name2}) == learned;
      }
      others := others - {name2};
    }
    assert Senders(config, name) - others == Senders(config, name);
  }

  /** Recording one more sender as Low on top of a history. */
  lemma LearnOne(h: map<string, Pulse>, senders: set<string>, x: string)
    ensures h + AllLow(senders + {x}) == (h + AllLow(senders))[x := Low]
  {
  }

  /** The undeclared names among `connections`, in order. */
  function Missing(config: Modules, connections: seq<string>): (missing: seq<string>)
    ensures |missing| <= |connections|
    ensures forall c :: c in missing ==> c !in config
  {
    if connections == [] then []
    else (if connections[0] in config then [] else [connections[0]]) + Missing(config, connections[1..])
  }

  /** `Missing` keeps exactly the connections the table lacks. */
  lemma {:induction false} MissingMembers(config: Modules, connections: seq<string>)
    ensures forall c :: c in Missing(config, connections) <==> c in connections && c !in config
  {
    if connections != [] {
      MissingMembers(config, connections[1..]);
      assert connections == [connections[0]] + connections[1..];
    }
  }

  /** The loop over one module's connections that collects the names no line
      declares. */
  method CollectMissing(config: Modules, connections: seq<string>, untyped: seq<string>) returns (untyped': seq<string>)
    ensures untyped' == untyped + Missing(config, connections)
  {
    untyped' := untyped;
    for j := 0 to |connections|
      invariant untyped' + Missing(config, connections[j..]) == untyped + Missing(config, connections)
    {
      ghost var rest := connections[j..];
      ghost var step := if connections[j] in config then [] else [connections[j]];
      assert rest[0] == connections[j] && rest[1..] == connections[j + 1..];
      assert Missing(config, rest) == step + Missing(config, connections[j + 1..]);
      ghost var prev := untyped';
      if connections[j] !in config {
        untyped' := untyped' + [connections[j]];
      }
      assert untyped' == prev + step;
      assert prev + (step + Missing(config, connections[j + 1..])) == (prev + step) + Missing(config, connections[j + 1..]);
    }
    assert connections[|connections|..] == [];
  }

  /** The first loop of `parse`: one module per line, keyed by name. */
  method DeclareAll(lines: seq<string>) returns (config: Modules)
    requires Tokenisable(lines)
    ensures config == Declared(lines)
  {
    ghost var ds := Declarations(lines);
    config := map[];
    for i := 0 to |lines|
      invariant config == Store(ds[..i])
    {
      assert ds[..i + 1][..i] == ds[..i];
      var tokens := Split(lines[i]);
      var connections := Targets(tokens);
      var moduleType := tokens[0][0];
      var name := tokens[0][1..];
      match moduleType
      case 'b' => config := config[BroadcasterName := Broadcaster(connections)];
      case '%' => config := config[name := FlipFlop(false, connections)];
      case '&' => config := config[name := Conjunction(map[], connections)];
      case _ =>
    }
    assert ds[..|lines|] == ds;
  }

  /** Progress of the second loop: the modules outside `todo` are wired,
      the others still as declared. */
  ghost predicate PartlyWired(declared: Modules, config: Modules, todo: set<string>)
  {
    && todo <= declared.Keys
    && SameWiring(config, declared)
    && forall k :: k in config ==> config[k] == if k in todo then declared[k] else Wired(declared, k)
  }

  /** Progress of the second loop: the collected names are exactly the
      undeclared connections of the modules outside `todo`. */
  ghost predicate PartlyCollected(declared: Modules, untypedNames: seq<string>, todo: set<string>)
  {
    && (forall c :: c in untypedNames ==> c in Referenced(declared) && c !in declared)
    && (forall k, c :: k in declared && k !in todo && c in declared[k].Connections() && c !in declared ==> c in untypedNames)
  }

  lemma WiredStep(declared: Modules, config: Modules, config': Modules, todo: set<string>, name: string)
    requires forall k :: k in declared ==> Fresh(declared[k])
    requires PartlyWired(declared, config, todo) && name in todo
    requires config' == if config[name].Conjunction?
                        then config[name := config[name].(history := config[name].history + AllLow(Senders(config, name)))]
                        else config
    ensures PartlyWired(declared, config', todo - {name})
  {
    SendersSameWiring(config, declared, name);
    assert config[name] == declared[name];
    if config[name].Conjunction? {
      assert config[name].history + AllLow(Senders(config, name)) == AllLow(Senders(declared, name));
    }
  }

  lemma CollectedStep(declared: Modules, config: Modules, untypedNames: seq<string>, todo: set<string>, name: string)
    requires PartlyWired(declared, config, todo) && PartlyCollected(declared, untypedNames, todo) && name in todo
    ensures PartlyCollected(declared, untypedNames + Missing(config, config[name].Connections()), todo - {name})
  {
    var u := untypedNames + Missing(config, config[name].Connections());
    MissingMembers(config, config[name].Connections());
    assert config[name].Connections() == declared[name].Connections();
    forall c | c in u
      ensures c in Referenced(declared) && c !in declared
    {
      if c !in untypedNames {
        assert c in declared[name].Connections();
      }
    }
  }

  /** The second loop of `parse`: for every declared module, collect its
      undeclared connections, and teach every conjunction its inputs. */
  method WireAll(declared: Modules) returns (config: Modules, untypedNames: seq<string>)
    requires forall k :: k in declared ==> Fresh(declared[k])
    ensures forall k :: k in config <==> k in declared
    ensures forall k :: k in config ==> config[k] == Wired(declared, k)
    ensures forall c :: c in untypedNames <==> c in Referenced(declared) && c !in declared
  {
    config := declared;
    untypedNames := [];
    var todo := config.Keys;
    while todo != {}
      invariant PartlyWired(declared, config, todo)
      invariant PartlyCollected(declared, untypedNames, todo)
      decreases todo
    {
      var name :| name in todo;
      var current := config[name];
      ghost var before, collected := config, untypedNames;
      untypedNames := CollectMissing(config, current.Connections(), untypedNames);
      if current.Conjunction? {
        config := LearnInputs(config, name);
      }
      WiredStep(declared, before, config, todo, name);
      CollectedStep(declared, before, collected, todo, name);
      todo := todo - {name};
    }
  }

  /** The third loop of `parse`: a sink for every collected name. */
  method AddSinks(wired: Modules, untypedNames: seq<string>) returns (config: Modules)
    ensures forall k :: k in config <==> k in wired || k in untypedNames
    ensures forall k :: k in config ==> config[k] == if k in untypedNames then Untyped else wired[k]
  {
    config := wired;
    for j := 0 to |untypedNames|
      invariant forall k :: k in config <==> k in wired || k in untypedNames[..j]
      invariant forall k :: k in config ==> config[k] == if k in untypedNames[..j] then Untyped else wired[k]
    {
      assert untypedNames[..j + 1] == untypedNames[..j] + [untypedNames[j]];
      config := config[untypedNames[j] := Untyped];
    }
    assert untypedNames[..|untypedNames|] == untypedNames;
  }

  /** `parse`: declare, wire, add sinks. */
  method Parse(lines: seq<string>) returns (config: Modules)
    requires Tokenisable(lines)
    ensures config == Build(lines)
  {
    var declared := DeclareAll(lines);
    var wired, untypedNames := WireAll(declared);
    config := AddSinks(wired, untypedNames);
    assert forall k :: k in config ==> config[k] == Wire(declared)[k];
  }
}
