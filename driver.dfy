/** The puzzle driver: build the table once, press the button a number of
    times on that same table, and multiply the total Low and High counts. */
module Driver {
  import opened Circuit
  import opened Parsing
  import opened Propagation

  /** The table after some presses and the pulses counted over all of them;
      `finished` is false once a press ran out of steps, after which no
      further press is made. */
  datatype Tally = Tally(modules: Modules, low: nat, high: nat, finished: bool)

  /** `n` presses in a row, each on the table the previous one left. */
  function Presses(modules: Modules, n: nat, fuel: nat): (t: Tally)
    requires Closed(modules) && BroadcasterName in modules
    ensures SameShape(modules, t.modules) && Closed(t.modules)
    decreases n
  {
    if n == 0 then Tally(modules, 0, 0, true)
    else
      var prev := Presses(modules, n - 1, fuel);
      if !prev.finished then prev
      else
        var p := Press(prev.modules, fuel);
        Tally(p.modules, prev.low + p.low, prev.high + p.high, p.finished)
  }

  /** The `n`-th press extends the tally of the first `n - 1`: by that
      press's counts when all of them finished, not at all otherwise. */
  lemma PressesNext(modules: Modules, n: nat, fuel: nat)
    requires Closed(modules) && BroadcasterName in modules && n > 0
    ensures var t := Presses(modules, n - 1, fuel);
            && (!t.finished ==> Presses(modules, n, fuel) == t)
            && (t.finished ==>
                  var p := Press(t.modules, fuel);
                  Presses(modules, n, fuel) == Tally(p.modules, t.low + p.low, t.high + p.high, p.finished))
  {
  }

  /** Every completed press counts at least the button's own Low pulse. */
  lemma {:induction false} PressesLowBound(modules: Modules, n: nat, fuel: nat)
    requires Closed(modules) && BroadcasterName in modules
    ensures var t := Presses(modules, n, fuel);
            t.finished ==> t.low >= n
  {
    if n > 0 {
      PressesLowBound(modules, n - 1, fuel);
      PressesNext(modules, n, fuel);
      var prev := Presses(modules, n - 1, fuel);
      if prev.finished {
        PressFinishedLow(prev.modules, fuel);
      }
    }
  }

  /** `n` copies of `x` are `n - 1` copies and one more. */
  lemma MulSucc(n: nat, x: nat)
    requires n > 0
    ensures (n - 1) * x + x == n * x
  {
  }

  /** A press that leaves the table as it found it repeats itself: `n`
      presses then count `n` times its pulses. */
  lemma {:induction false} PressesPeriodic(modules: Modules, n: nat, fuel: nat, low: nat, high: nat)
    requires Closed(modules) && BroadcasterName in modules
    requires Press(modules, fuel) == Outcome(modules, low, high, true)
    ensures var t := Presses(modules, n, fuel);
            t.modules == modules && t.finished && t.low == n * low && t.high == n * high
  {
    if n > 0 {
      PressesPeriodic(modules, n - 1, fuel, low, high);
      PressesNext(modules, n, fuel);
      MulSucc(n, low);
      MulSucc(n, high);
    }
  }

  /** One pass of the loop of `solve`: press once more, on the table as the
      earlier presses left it, unless an earlier press ran out of steps. */
  method PressAgain(config: Config, ghost modules: Modules, ghost n: nat, fuel: nat,
                    lowCount: nat, highCount: nat, finished: bool)
    returns (lowCount': nat, highCount': nat, finished': bool)
    requires Closed(modules) && BroadcasterName in modules && !IsConjunction(modules, BroadcasterName)
    requires n > 0 && Presses(modules, n - 1, fuel) == Tally(config.modules, lowCount, highCount, finished)
    modifies config
    ensures Presses(modules, n, fuel) == Tally(config.modules, lowCount', highCount', finished')
  {
    PressesNext(modules, n, fuel);
    lowCount', highCount', finished' := lowCount, highCount, finished;
    if finished {
      ghost var before := config.modules;
      assert SameKind(modules[BroadcasterName], before[BroadcasterName]);
      var low, high, done := Iteration(config, fuel);
      assert Press(before, fuel) == Outcome(config.modules, low, high, done);
      lowCount', highCount', finished' := lowCount + low, highCount + high, done;
    }
  }

  /** The loop of `solve`: `n` presses on one table, updated in place, with
      the pulses of every press added to two running totals. */
  method PressRepeatedly(config: Config, n: nat, fuel: nat) returns (lowCount: nat, highCount: nat, finished: bool)
    requires Closed(config.modules) && BroadcasterName in config.modules
    requires !IsConjunction(config.modules, BroadcasterName)
    modifies config
    ensures Presses(old(config.modules), n, fuel) == Tally(config.modules, lowCount, highCount, finished)
  {
    ghost var modules := config.modules;
    lowCount, highCount := 0, 0;
    finished := true;
    for i := 0 to n
      invariant Presses(modules, i, fuel) == Tally(config.modules, lowCount, highCount, finished)
    {
      lowCount, highCount, finished := PressAgain(config, modules, i + 1, fuel, lowCount, highCount, finished);
    }
  }

  /** `solve`: the product of the Low and High pulse totals over `n` presses
      of the built table, or None when some press exceeds `fuel` steps. */
  method Solve(lines: seq<string>, n: nat, fuel: nat) returns (answer: Option<int>)
    requires Tokenisable(lines)
    requires BroadcasterName in Build(lines)
    requires !IsConjunction(Build(lines), BroadcasterName)
    ensures var t := Presses(Build(lines), n, fuel);
            answer == if t.finished then Some(t.low * t.high) else None
  {
    var modules := Parse(lines);
    var config := new Config(modules);
    var lowCount, highCount, finished := PressRepeatedly(config, n, fuel);
    if finished {
      answer := Some(lowCount as int * highCount as int);
    } else {
      answer := None;
    }
  }
}
