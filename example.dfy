/** A worked sample: the five-module network of the puzzle statement, one
    press delivery by delivery, and the answer for a thousand presses. */
module Example {
  import opened Circuit
  import opened Propagation
  import opened Parsing
  import opened Driver

  /** The sample network `broadcaster -> a, b, c`, `%a -> b`, `%b -> c`,
      `%c -> inv`, `&inv -> a` after wiring, with the flip-flop statuses and
      the level `inv` last heard from `c` as parameters. */
  function Sample(a: bool, b: bool, c: bool, seen: Pulse): (m: Modules)
    ensures Closed(m) && BroadcasterName in m && !IsConjunction(m, BroadcasterName)
  {
    map[BroadcasterName := Broadcaster(["a", "b", "c"]),
        "a" := FlipFlop(a, ["b"]),
        "b" := FlipFlop(b, ["c"]),
        "c" := FlipFlop(c, ["inv"]),
        "inv" := Conjunction(map["c" := seen], ["a"])]
  }

  // One press, delivery by delivery: each `SampleDeliveryN` evaluates the
  // transition rule for the N-th pulse, and `SampleStepN` advances `Run`.

  lemma SampleDelivery1()
    ensures Receive(Sample(false, false, false, Low), ButtonPress)
         == Reaction(Sample(false, false, false, Low), [Event("a", Low, BroadcasterName), Event("b", Low, BroadcasterName), Event("c", Low, BroadcasterName)])
  {
  }

  lemma SampleStep1(fuel: nat)
    ensures Run(Sample(false, false, false, Low), [ButtonPress], 0, 0, fuel + 1)
         == Run(Sample(false, false, false, Low), [Event("a", Low, BroadcasterName), Event("b", Low, BroadcasterName), Event("c", Low, BroadcasterName)], 1, 0, fuel)
  {
    SampleDelivery1();
    RunStep(Sample(false, false, false, Low), [ButtonPress], 0, 0, fuel + 1,
            Sample(false, false, false, Low), [Event("a", Low, BroadcasterName), Event("b", Low, BroadcasterName), Event("c", Low, BroadcasterName)], 1, 0, fuel);
  }

  lemma SampleDelivery2()
    ensures Receive(Sample(false, false, false, Low), Event("a", Low, BroadcasterName))
         == Reaction(Sample(true, false, false, Low), [Event("b", High, "a")])
  {
  }

  lemma SampleStep2(fuel: nat)
    ensures Run(Sample(false, false, false, Low), [Event("a", Low, BroadcasterName), Event("b", Low, BroadcasterName), Event("c", Low, BroadcasterName)], 1, 0, fuel + 1)
         == Run(Sample(true, false, false, Low), [Event("b", Low, BroadcasterName), Event("c", Low, BroadcasterName), Event("b", High, "a")], 2, 0, fuel)
  {
    SampleDelivery2();
    RunStep(Sample(false, false, false, Low), [Event("a", Low, BroadcasterName), Event("b", Low, BroadcasterName), Event("c", Low, BroadcasterName)], 1, 0, fuel + 1,
            Sample(true, false, false, Low), [Event("b", Low, BroadcasterName), Event("c", Low, BroadcasterName), Event("b", High, "a")], 2, 0, fuel);
  }

  lemma SampleDelivery3()
    ensures Receive(Sample(true, false, false, Low), Event("b", Low, BroadcasterName))
         == Reaction(Sample(true, true, false, Low), [Event("c", High, "b")])
  {
  }

  lemma SampleStep3(fuel: nat)
    ensures Run(Sample(true, false, false, Low), [Event("b", Low, BroadcasterName), Event("c", Low, BroadcasterName), Event("b", High, "a")], 2, 0, fuel + 1)
         == Run(Sample(true, true, false, Low), [Event("c", Low, BroadcasterName), Event("b", High, "a"), Event("c", High, "b")], 3, 0, fuel)
  {
    SampleDelivery3();
    RunStep(Sample(true, false, false, Low), [Event("b", Low, BroadcasterName), Event("c", Low, BroadcasterName), Event("b", High, "a")], 2, 0, fuel + 1,
            Sample(true, true, false, Low), [Event("c", Low, BroadcasterName), Event("b", High, "a"), Event("c", High, "b")], 3, 0, fuel);
  }

  lemma SampleDelivery4()
    ensures Receive(Sample(true, true, false, Low), Event("c", Low, BroadcasterName))
         == Reaction(Sample(true, true, true, Low), [Event("inv", High, "c")])
  {
  }

  lemma SampleStep4(fuel: nat)
    ensures Run(Sample(true, true, false, Low), [Event("c", Low, BroadcasterName), Event("b", High, "a"), Event("c", High, "b")], 3, 0, fuel + 1)
         == Run(Sample(true, true, true, Low), [Event("b", High, "a"), Event("c", High, "b"), Event("inv", High, "c")], 4, 0, fuel)
  {
    SampleDelivery4();
    RunStep(Sample(true, true, false, Low), [Event("c", Low, BroadcasterName), Event("b", High, "a"), Event("c", High, "b")], 3, 0, fuel + 1,
            Sample(true, true, true, Low), [Event("b", High, "a"), Event("c", High, "b"), Event("inv", High, "c")], 4, 0, fuel);
  }

  lemma SampleDelivery5()
    ensures Receive(Sample(true, true, true, Low), Event("b", High, "a"))
         == Reaction(Sample(true, true, true, Low), [])
  {
  }

  lemma SampleStep5(fuel: nat)
    ensures Run(Sample(true, true, true, Low), [Event("b", High, "a"), Event("c", High, "b"), Event("inv", High, "c")], 4, 0, fuel + 1)
         == Run(Sample(true, true, true, Low), [Event("c", High, "b"), Event("inv", High, "c")], 4, 1, fuel)
  {
    SampleDelivery5();
    RunStep(Sample(true, true, true, Low), [Event("b", High, "a"), Event("c", High, "b"), Event("inv", High, "c")], 4, 0, fuel + 1,
            Sample(true, true, true, Low), [Event("c", High, "b"), Event("inv", High, "c")], 4, 1, fuel);
  }

  lemma SampleDelivery6()
    ensures Receive(Sample(true, true, true, Low), Event("c", High, "b"))
         == Reaction(Sample(true, true, true, Low), [])
  {
  }

  lemma SampleStep6(fuel: nat)
    ensures Run(Sample(true, true, true, Low), [Event("c", High, "b"), Event("inv", High, "c")], 4, 1, fuel + 1)
         == Run(Sample(true, true, true, Low), [Event("inv", High, "c")], 4, 2, fuel)
  {
    SampleDelivery6();
    RunStep(Sample(true, true, true, Low), [Event("c", High, "b"), Event("inv", High, "c")], 4, 1, fuel + 1,
            Sample(true, true, true, Low), [Event("inv", High, "c")], 4, 2, fuel);
  }

  lemma SampleDelivery7()
    ensures Receive(Sample(true, true, true, Low), Event("inv", High, "c"))
         == Reaction(Sample(true, true, true, High), [Event("a", Low, "inv")])
  {
    assert map["c" := Low]["c" := High] == map["c" := High];
  }

  lemma SampleStep7(fuel: nat)
    ensures Run(Sample(true, true, true, Low), [Event("inv", High, "c")], 4, 2, fuel + 1)
         == Run(Sample(true, true, true, High), [Event("a", Low, "inv")], 4, 3, fuel)
  {
    SampleDelivery7();
    RunStep(Sample(true, true, true, Low), [Event("inv", High, "c")], 4, 2, fuel + 1,
            Sample(true, true, true, High), [Event("a", Low, "inv")], 4, 3, fuel);
  }

  lemma SampleDelivery8()
    ensures Receive(Sample(true, true, true, High), Event("a", Low, "inv"))
         == Reaction(Sample(false, true, true, High), [Event("b", Low, "a")])
  {
  }

  lemma SampleStep8(fuel: nat)
    ensures Run(Sample(true, true, true, High), [Event("a", Low, "inv")], 4, 3, fuel + 1)
         == Run(Sample(false, true, true, High), [Event("b", Low, "a")], 5, 3, fuel)
  {
    SampleDelivery8();
    RunStep(Sample(true, true, true, High), [Event("a", Low, "inv")], 4, 3, fuel + 1,
            Sample(false, true, true, High), [Event("b", Low, "a")], 5, 3, fuel);
  }

  lemma SampleDelivery9()
    ensures Receive(Sample(false, true, true, High), Event("b", Low, "a"))
         == Reaction(Sample(false, false, true, High), [Event("c", Low, "b")])
  {
  }

  lemma SampleStep9(fuel: nat)
    ensures Run(Sample(false, true, true, High), [Event("b", Low, "a")], 5, 3, fuel + 1)
         == Run(Sample(false, false, true, High), [Event("c", Low, "b")], 6, 3, fuel)
  {
    SampleDelivery9();
    RunStep(Sample(false, true, true, High), [Event("b", Low, "a")], 5, 3, fuel + 1,
            Sample(false, false, true, High), [Event("c", Low, "b")], 6, 3, fuel);
  }

  lemma SampleDelivery10()
    ensures Receive(Sample(false, false, true, High), Event("c", Low, "b"))
         == Reaction(Sample(false, false, false, High), [Event("inv", Low, "c")])
  {
  }

  lemma SampleStep10(fuel: nat)
    ensures Run(Sample(false, false, true, High), [Event("c", Low, "b")], 6, 3, fuel + 1)
         == Run(Sample(false, false, false, High), [Event("inv", Low, "c")], 7, 3, fuel)
  {
    SampleDelivery10();
    RunStep(Sample(false, false, true, High), [Event("c", Low, "b")], 6, 3, fuel + 1,
            Sample(false, false, false, High), [Event("inv", Low, "c")], 7, 3, fuel);
  }

  lemma SampleDelivery11()
    ensures Receive(Sample(false, false, false, High), Event("inv", Low, "c"))
         == Reaction(Sample(false, false, false, Low), [Event("a", High, "inv")])
  {
    assert map["c" := High]["c" := Low] == map["c" := Low];
    assert !AllHigh(map["c" := Low]) by { assert map["c" := Low]["c"] == Low; }
  }

  lemma SampleStep11(fuel: nat)
    ensures Run(Sample(false, false, false, High), [Event("inv", Low, "c")], 7, 3, fuel + 1)
         == Run(Sample(false, false, false, Low), [Event("a", High, "inv")], 8, 3, fuel)
  {
    SampleDelivery11();
    RunStep(Sample(false, false, false, High), [Event("inv", Low, "c")], 7, 3, fuel + 1,
            Sample(false, false, false, Low), [Event("a", High, "inv")], 8, 3, fuel);
  }

  lemma SampleDelivery12()
    ensures Receive(Sample(false, false, false, Low), Event("a", High, "inv"))
         == Reaction(Sample(false, false, false, Low), [])
  {
  }

  lemma SampleStep12(fuel: nat)
    ensures Run(Sample(false, false, false, Low), [Event("a", High, "inv")], 8, 3, fuel + 1)
         == Run(Sample(false, false, false, Low), [], 8, 4, fuel)
  {
    SampleDelivery12();
    RunStep(Sample(false, false, false, Low), [Event("a", High, "inv")], 8, 3, fuel + 1,
            Sample(false, false, false, Low), [], 8, 4, fuel);
  }

  /** The broadcaster's pulse and the first flips of `a`, `b` and `c`. */
  lemma SampleRunLow(fuel: nat)
    ensures Run(Sample(false, false, false, Low), [ButtonPress], 0, 0, fuel + 4)
         == Run(Sample(true, true, true, Low), [Event("b", High, "a"), Event("c", High, "b"), Event("inv", High, "c")], 4, 0, fuel)
  {
    SampleStep1(fuel + 3);
    SampleStep2(fuel + 2);
    SampleStep3(fuel + 1);
    SampleStep4(fuel);
  }

  /** The High pulses the flips sent, ending with `inv` hearing High. */
  lemma SampleRunHigh(fuel: nat)
    ensures Run(Sample(true, true, true, Low), [Event("b", High, "a"), Event("c", High, "b"), Event("inv", High, "c")], 4, 0, fuel + 4)
         == Run(Sample(false, true, true, High), [Event("b", Low, "a")], 5, 3, fuel)
  {
    SampleStep5(fuel + 3);
    SampleStep6(fuel + 2);
    SampleStep7(fuel + 1);
    SampleStep8(fuel);
  }

  /** The flips back to off, and `inv` forgetting the High it had heard. */
  lemma SampleRunBack(fuel: nat)
    ensures Run(Sample(false, true, true, High), [Event("b", Low, "a")], 5, 3, fuel + 4)
         == Run(Sample(false, false, false, Low), [], 8, 4, fuel)
  {
    SampleStep9(fuel + 3);
    SampleStep10(fuel + 2);
    SampleStep11(fuel + 1);
    SampleStep12(fuel);
  }

  /** The twelve deliveries of one press, for any step bound that covers them. */
  lemma SampleRun(fuel: nat)
    ensures Run(Sample(false, false, false, Low), [ButtonPress], 0, 0, fuel + 12)
         == Run(Sample(false, false, false, Low), [], 8, 4, fuel)
  {
    SampleRunLow(fuel + 8);
    SampleRunHigh(fuel + 4);
    SampleRunBack(fuel);
  }

  /** One press of the sample network, given a step bound of at least 12,
      delivers 8 Low and 4 High pulses and leaves every module as it was. */
  lemma SamplePress(fuel: nat)
    requires fuel >= 12
    ensures Press(Sample(false, false, false, Low), fuel) == Outcome(Sample(false, false, false, Low), 8, 4, true)
  {
    SampleRun(fuel - 12);
  }

  /** So a thousand presses count 8000 Low and 4000 High pulses, whose
      product is 32000000. */
  lemma SampleThousandPresses(fuel: nat)
    requires fuel >= 12
    ensures var t := Presses(Sample(false, false, false, Low), 1000, fuel);
            t.finished && t.low * t.high == 32000000
  {
    SamplePress(fuel);
    PressesPeriodic(Sample(false, false, false, Low), 1000, fuel, 8, 4);
  }

  // The builder on the sample's text, line by line.

  /** The sample's description, one module per line. */
  const SampleLines: seq<string> := ["broadcaster -> a, b, c", "%a -> b", "%b -> c", "%c -> inv", "&inv -> a"]

  /** The sample table after the first phase of the builder. */
  function SampleDeclared(): Modules
  {
    map[BroadcasterName := Broadcaster(["a", "b", "c"]),
        "a" := FlipFlop(false, ["b"]),
        "b" := FlipFlop(false, ["c"]),
        "c" := FlipFlop(false, ["inv"]),
        "inv" := Conjunction(map[], ["a"])]
  }

  lemma SampleTokens0()
    ensures Split("broadcaster -> a, b, c") == ["broadcaster", "->", "a,", "b,", "c"]
  {
    assert Join(["broadcaster", "->", "a,", "b,", "c"]) == "broadcaster -> a, b, c";
    SplitJoin(["broadcaster", "->", "a,", "b,", "c"]);
  }

  lemma SampleTargets0()
    ensures Targets(["broadcaster", "->", "a,", "b,", "c"]) == ["a", "b", "c"]
  {
    assert StripCommas("a,") == "a";
    assert StripCommas("b,") == "b";
    assert StripCommas("c") == "c";
  }

  lemma SampleLine0()
    ensures Split("broadcaster -> a, b, c") != []
    ensures Declaration("broadcaster -> a, b, c") == Some((BroadcasterName, Broadcaster(["a", "b", "c"])))
  {
    SampleTokens0();
    SampleTargets0();
  }

  /** A line `<kind><name> -> <target>` with a single target splits into
      three tokens. */
  lemma ArrowTokens(kind: char, name: string, target: string)
    requires kind == '%' || kind == '&'
    requires NoSpace(name) && target != [] && NoSpace(target)
    ensures Split([kind] + name + " -> " + target) == [[kind] + name, "->", target]
  {
    var words := [[kind] + name, "->", target];
    assert Join(words[2..]) == target;
    assert Join(words[1..]) == "->" + " " + target;
    assert Join(words) == [kind] + name + " -> " + target;
    SplitJoin(words);
  }

  /** Such a line declares `name`, a flip-flop for `%` and a conjunction
      for `&`, connected to `target` alone. */
  lemma ArrowLine(kind: char, name: string, target: string)
    requires kind == '%' || kind == '&'
    requires NoSpace(name) && target != [] && NoSpace(target) && ',' !in target
    ensures var line := [kind] + name + " -> " + target;
            && Split(line) != []
            && Declaration(line) == Some((name, if kind == '%' then FlipFlop(false, [target]) else Conjunction(map[], [target])))
  {
    var words := [[kind] + name, "->", target];
    ArrowTokens(kind, name, target);
    StripCommasKeeps(target);
    assert Targets(words) == [target];
    assert words[0][0] == kind && words[0][1..] == name;
  }

  lemma SampleLine1()
    ensures Split("%a -> b") != []
    ensures Declaration("%a -> b") == Some(("a", FlipFlop(false, ["b"])))
  {
    ArrowLine('%', "a", "b");
    assert ['%'] + "a" + " -> " + "b" == "%a -> b";
  }

  lemma SampleLine2()
    ensures Split("%b -> c") != []
    ensures Declaration("%b -> c") == Some(("b", FlipFlop(false, ["c"])))
  {
    ArrowLine('%', "b", "c");
    assert ['%'] + "b" + " -> " + "c" == "%b -> c";
  }

  lemma SampleLine3()
    ensures Split("%c -> inv") != []
    ensures Declaration("%c -> inv") == Some(("c", FlipFlop(false, ["inv"])))
  {
    ArrowLine('%', "c", "inv");
    assert ['%'] + "c" + " -> " + "inv" == "%c -> inv";
  }

  lemma SampleLine4()
    ensures Split("&inv -> a") != []
    ensures Declaration("&inv -> a") == Some(("inv", Conjunction(map[], ["a"])))
  {
    ArrowLine('&', "inv", "a");
    assert ['&'] + "inv" + " -> " + "a" == "&inv -> a";
  }

  lemma SampleTokenisable()
    ensures Tokenisable(SampleLines)
  {
    forall i | 0 <= i < |SampleLines|
      ensures Split(SampleLines[i]) != []
    {
      if i == 0 { SampleLine0(); }
      else if i == 1 { SampleLine1(); }
      else if i == 2 { SampleLine2(); }
      else if i == 3 { SampleLine3(); }
      else { SampleLine4(); }
    }
  }

  lemma DeclarationsOf(lines: seq<string>, ds: seq<Option<(string, Module)>>)
    requires Tokenisable(lines) && |ds| == |lines|
    requires forall i :: 0 <= i < |lines| ==> Declaration(lines[i]) == ds[i]
    ensures Declarations(lines) == ds
  {
  }

  lemma SampleDeclarations()
    ensures Tokenisable(SampleLines)
    ensures Declarations(SampleLines) == [Some((BroadcasterName, Broadcaster(["a", "b", "c"]))), Some(("a", FlipFlop(false, ["b"]))), Some(("b", FlipFlop(false, ["c"]))), Some(("c", FlipFlop(false, ["inv"]))), Some(("inv", Conjunction(map[], ["a"])))]
  {
    SampleTokenisable();
    var ds := [Some((BroadcasterName, Broadcaster(["a", "b", "c"]))), Some(("a", FlipFlop(false, ["b"]))), Some(("b", FlipFlop(false, ["c"]))), Some(("c", FlipFlop(false, ["inv"]))), Some(("inv", Conjunction(map[], ["a"])))];
    forall i | 0 <= i < |SampleLines|
      ensures Declaration(SampleLines[i]) == ds[i]
    {
      if i == 0 { SampleLine0(); }
      else if i == 1 { SampleLine1(); }
      else if i == 2 { SampleLine2(); }
      else if i == 3 { SampleLine3(); }
      else { SampleLine4(); }
    }
    DeclarationsOf(SampleLines, ds);
  }

  lemma SampleStore1()
    ensures Store([Some((BroadcasterName, Broadcaster(["a", "b", "c"])))]) == map[BroadcasterName := Broadcaster(["a", "b", "c"])]
  {
  }

  lemma SampleStore2()
    ensures Store([Some((BroadcasterName, Broadcaster(["a", "b", "c"]))), Some(("a", FlipFlop(false, ["b"])))]) == map[BroadcasterName := Broadcaster(["a", "b", "c"]), "a" := FlipFlop(false, ["b"])]
  {
    SampleStore1();
    assert [Some((BroadcasterName, Broadcaster(["a", "b", "c"]))), Some(("a", FlipFlop(false, ["b"])))][..1] == [Some((BroadcasterName, Broadcaster(["a", "b", "c"])))];
  }

  lemma SampleStore3()
    ensures Store([Some((BroadcasterName, Broadcaster(["a", "b", "c"]))), Some(("a", FlipFlop(false, ["b"]))), Some(("b", FlipFlop(false, ["c"])))]) == map[BroadcasterName := Broadcaster(["a", "b", "c"]), "a" := FlipFlop(false, ["b"]), "b" := FlipFlop(false, ["c"])]
  {
    SampleStore2();
    assert [Some((BroadcasterName, Broadcaster(["a", "b", "c"]))), Some(("a", FlipFlop(false, ["b"]))), Some(("b", FlipFlop(false, ["c"])))][..2] == [Some((BroadcasterName, Broadcaster(["a", "b", "c"]))), Some(("a", FlipFlop(false, ["b"])))];
  }

  lemma SampleStore4()
    ensures Store([Some((BroadcasterName, Broadcaster(["a", "b", "c"]))), Some(("a", FlipFlop(false, ["b"]))), Some(("b", FlipFlop(false, ["c"]))), Some(("c", FlipFlop(false, ["inv"])))]) == map[BroadcasterName := Broadcaster(["a", "b", "c"]), "a" := FlipFlop(false, ["b"]), "b" := FlipFlop(false, ["c"]), "c" := FlipFlop(false, ["inv"])]
  {
    SampleStore3();
    assert [Some((BroadcasterName, Broadcaster(["a", "b", "c"]))), Some(("a", FlipFlop(false, ["b"]))), Some(("b", FlipFlop(false, ["c"]))), Some(("c", FlipFlop(false, ["inv"])))][..3] == [Some((BroadcasterName, Broadcaster(["a", "b", "c"]))), Some(("a", FlipFlop(false, ["b"]))), Some(("b", FlipFlop(false, ["c"])))];
  }

  lemma SampleStore5()
    ensures Store([Some((BroadcasterName, Broadcaster(["a", "b", "c"]))), Some(("a", FlipFlop(false, ["b"]))), Some(("b", FlipFlop(false, ["c"]))), Some(("c", FlipFlop(false, ["inv"]))), Some(("inv", Conjunction(map[], ["a"])))]) == map[BroadcasterName := Broadcaster(["a", "b", "c"]), "a" := FlipFlop(false, ["b"]), "b" := FlipFlop(false, ["c"]), "c" := FlipFlop(false, ["inv"]), "inv" := Conjunction(map[], ["a"])]
  {
    SampleStore4();
    assert [Some((BroadcasterName, Broadcaster(["a", "b", "c"]))), Some(("a", FlipFlop(false, ["b"]))), Some(("b", FlipFlop(false, ["c"]))), Some(("c", FlipFlop(false, ["inv"]))), Some(("inv", Conjunction(map[], ["a"])))][..4] == [Some((BroadcasterName, Broadcaster(["a", "b", "c"]))), Some(("a", FlipFlop(false, ["b"]))), Some(("b", FlipFlop(false, ["c"]))), Some(("c", FlipFlop(false, ["inv"])))];
  }

  lemma SampleDeclare()
    ensures Tokenisable(SampleLines)
    ensures Declared(SampleLines) == SampleDeclared()
  {
    SampleDeclarations();
    SampleStore5();
  }

  /** Wiring the declared sample teaches `inv` its one input, `c`, as Low;
      every connection is declared, so no sink is added. */
  lemma SampleWire()
    ensures Wire(SampleDeclared()) == Sample(false, false, false, Low)
  {
    SampleWireOf(SampleDeclared());
  }

  lemma SampleWireOf(d: Modules)
    requires d == SampleDeclared()
    ensures Wire(d) == Sample(false, false, false, Low)
  {
    SampleReferenced(d);
    SampleSenders(d);
    assert AllLow({"c"}) == map["c" := Low];
    assert Wired(d, "inv") == Conjunction(map["c" := Low], ["a"]);
  }

  /** Every name the sample references is declared. */
  lemma SampleReferenced(d: Modules)
    requires d == SampleDeclared()
    ensures Referenced(d) <= d.Keys
  {
  }

  /** `c` is the only input of `inv`. */
  lemma SampleSenders(d: Modules)
    requires d == SampleDeclared()
    ensures Senders(d, "inv") == {"c"}
  {
    forall s | s in Senders(d, "inv") ensures s == "c" { }
    assert "inv" in d["c"].Connections();
  }

  /** The builder turns the sample's text into the sample table. */
  lemma SampleBuild()
    ensures Tokenisable(SampleLines)
    ensures Build(SampleLines) == Sample(false, false, false, Low)
  {
    SampleDeclare();
    SampleWire();
  }

  /** Hence the driver answers 32000000 for the sample and a thousand
      presses of at most 12 deliveries each. */
  lemma SampleAnswer(fuel: nat)
    requires fuel >= 12
    ensures Tokenisable(SampleLines)
    ensures BroadcasterName in Build(SampleLines) && !IsConjunction(Build(SampleLines), BroadcasterName)
    ensures var t := Presses(Build(SampleLines), 1000, fuel);
            t.finished && t.low * t.high == 32000000
  {
    SampleBuild();
    var m := Sample(false, false, false, Low);
    assert Build(SampleLines) == m;
    assert !IsConjunction(m, BroadcasterName);
    SampleThousandPresses(fuel);
  }
}
