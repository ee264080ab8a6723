/** What the interpreter guarantees: the graph invariant, determinism without noise, fuel, scoping, branch brackets. */
module InterpreterLemmas {
  import opened Results
  import opened Syntax
  import opened Expressions
  import opened Turtle
  import opened Interpreter

  // ---- The graph invariant ----

  lemma {:induction false} CallRuleValid(rules: RuleTable, h: Host, call: RuleCall, ctx: Context, s: State, fuel: nat)
    requires Valid(s) && CallRule(rules, h, call, ctx, s, fuel).Ok?
    ensures Valid(CallRule(rules, h, call, ctx, s, fuel).value)
    ensures Grows(s, CallRule(rules, h, call, ctx, s, fuel).value)
    decreases fuel, 0
  {
    var def := rules[call.name];
    var args := EvalArgs(call.args, ctx, h.random, s.draws);
    RunBodyValid(rules, h, def.body, Bind(def.params, args.value.val), s.(draws := args.value.draws), fuel - 1);
  }

  lemma {:induction false} RunBodyValid(rules: RuleTable, h: Host, body: seq<Inst>, ctx: Context, s: State, fuel: nat)
    requires Valid(s) && RunBody(rules, h, body, ctx, s, fuel).Ok?
    ensures Valid(RunBody(rules, h, body, ctx, s, fuel).value)
    ensures Grows(s, RunBody(rules, h, body, ctx, s, fuel).value)
    decreases fuel, BodySize(body)
  {
    if |body| > 0 {
      var r := RunInst(rules, h, body[0], ctx, s, fuel);
      RunInstValid(rules, h, body[0], ctx, s, fuel);
      RunBodyValid(rules, h, body[1..], ctx, r.value, fuel);
      GrowsTransitive(s, r.value, RunBody(rules, h, body[1..], ctx, r.value, fuel).value);
    }
  }

  lemma {:induction false} RunInstValid(rules: RuleTable, h: Host, inst: Inst, ctx: Context, s: State, fuel: nat)
    requires Valid(s) && RunInst(rules, h, inst, ctx, s, fuel).Ok?
    ensures Valid(RunInst(rules, h, inst, ctx, s, fuel).value)
    ensures Grows(s, RunInst(rules, h, inst, ctx, s, fuel).value)
    decreases fuel, InstSize(inst)
  {
    match inst
    case Call(c) => CallRuleValid(rules, h, c, ctx, s, fuel);
    case Pitch(_) =>
    case Roll(_) =>
    case Branch(l, r) =>
      var vl := EvalSum(l, ctx, h.random, s.draws);
      var vr := EvalSum(r, ctx, h.random, vl.value.draws);
      AddBranchValid(h, s.(draws := vr.value.draws), vl.value.val, vr.value.val);
    case Leaf(l, r) =>
      var vl := EvalSum(l, ctx, h.random, s.draws);
      var vr := EvalSum(r, ctx, h.random, vl.value.draws);
      AddLeafValid(h, s.(draws := vr.value.draws), vl.value.val, vr.value.val);
    case Push => PushedValid(s);
    case Pop => PoppedValid(s);
    case If(c, t, e) =>
      var v := EvalCondition(c, ctx, h.random, s.draws);
      var s' := s.(draws := v.value.draws);
      if v.value.val {
        RunBodyValid(rules, h, t, ctx, s', fuel);
      } else if e.Else? {
        RunBodyValid(rules, h, e.body, ctx, s', fuel);
      }
  }

  /**
   * A finished run leaves a tree: edge k joins an earlier vertex to vertex k + 1, every edge
   * endpoint is a vertex index, and the root carries the radius of vertex 1.
   */
  lemma RunValid(rules: RuleTable, h: Host, axiom: RuleCall, draws: nat, fuel: nat)
    requires Run(rules, h, axiom, draws, fuel).Ok?
    ensures var t := Run(rules, h, axiom, draws, fuel).value;
            Valid(t) && |t.vertices| >= 2 && t.vertices[0].radius == t.vertices[1].radius &&
            t.vertices[0].pos == Origin &&
            EndpointsBelow(t.edges, |t.vertices|)
  {
    StartValid(draws);
    var r := CallRule(rules, h, axiom, map[], Start(draws), fuel);
    CallRuleValid(rules, h, axiom, map[], Start(draws), fuel);
    RootFixedValid(r.value);
    EdgesInRange(Run(rules, h, axiom, draws, fuel).value);
  }

  // ---- Without `~`, the random source does not matter ----

  lemma {:induction false} ArgsIgnoreRandom(args: seq<Expr>, ctx: Context, random1: Random, random2: Random, draws: nat)
    requires ArgsNoiseFree(args)
    ensures EvalArgs(args, ctx, random1, draws) == EvalArgs(args, ctx, random2, draws)
  {
    if |args| > 0 {
      var n := |args|;
      ArgsIgnoreRandom(args[..n - 1], ctx, random1, random2, draws);
      var init := EvalArgs(args[..n - 1], ctx, random1, draws);
      if init.Ok? {
        SumIgnoresRandom(args[n - 1], ctx, random1, random2, init.value.draws);
      }
    }
  }

  lemma {:induction false} CallRuleIgnoresRandom(rules: RuleTable, h1: Host, h2: Host, call: RuleCall, ctx: Context, s: State, fuel: nat)
    requires RulesNoiseFree(rules) && ArgsNoiseFree(call.args)
    requires h2 == h1.(random := h2.random)
    ensures CallRule(rules, h1, call, ctx, s, fuel) == CallRule(rules, h2, call, ctx, s, fuel)
    decreases fuel, 0
  {
    if fuel > 0 && call.name in rules && |rules[call.name].params| == |call.args| {
      var def := rules[call.name];
      ArgsIgnoreRandom(call.args, ctx, h1.random, h2.random, s.draws);
      var args := EvalArgs(call.args, ctx, h1.random, s.draws);
      if args.Ok? {
        RunBodyIgnoresRandom(rules, h1, h2, def.body, Bind(def.params, args.value.val), s.(draws := args.value.draws), fuel - 1);
      }
    }
  }

  lemma {:induction false} RunBodyIgnoresRandom(rules: RuleTable, h1: Host, h2: Host, body: seq<Inst>, ctx: Context, s: State, fuel: nat)
    requires RulesNoiseFree(rules) && BodyNoiseFree(body)
    requires h2 == h1.(random := h2.random)
    ensures RunBody(rules, h1, body, ctx, s, fuel) == RunBody(rules, h2, body, ctx, s, fuel)
    decreases fuel, BodySize(body)
  {
    if |body| > 0 {
      RunInstIgnoresRandom(rules, h1, h2, body[0], ctx, s, fuel);
      var r := RunInst(rules, h1, body[0], ctx, s, fuel);
      if r.Ok? {
        RunBodyIgnoresRandom(rules, h1, h2, body[1..], ctx, r.value, fuel);
      }
    }
  }

  lemma {:induction false} RunInstIgnoresRandom(rules: RuleTable, h1: Host, h2: Host, inst: Inst, ctx: Context, s: State, fuel: nat)
    requires RulesNoiseFree(rules) && InstNoiseFree(inst)
    requires h2 == h1.(random := h2.random)
    ensures RunInst(rules, h1, inst, ctx, s, fuel) == RunInst(rules, h2, inst, ctx, s, fuel)
    decreases fuel, InstSize(inst)
  {
    match inst
    case Call(c) => CallRuleIgnoresRandom(rules, h1, h2, c, ctx, s, fuel);
    case Pitch(a) => SumIgnoresRandom(a, ctx, h1.random, h2.random, s.draws);
    case Roll(a) => SumIgnoresRandom(a, ctx, h1.random, h2.random, s.draws);
    case Branch(l, r) =>
      SumIgnoresRandom(l, ctx, h1.random, h2.random, s.draws);
      var vl := EvalSum(l, ctx, h1.random, s.draws);
      if vl.Ok? { SumIgnoresRandom(r, ctx, h1.random, h2.random, vl.value.draws); }
    case Leaf(l, r) =>
      SumIgnoresRandom(l, ctx, h1.random, h2.random, s.draws);
      var vl := EvalSum(l, ctx, h1.random, s.draws);
      if vl.Ok? { SumIgnoresRandom(r, ctx, h1.random, h2.random, vl.value.draws); }
    case Push =>
    case Pop =>
    case If(c, t, e) =>
      ConditionIgnoresRandom(c, ctx, h1.random, h2.random, s.draws);
      var v := EvalCondition(c, ctx, h1.random, s.draws);
      if v.Ok? {
        var s' := s.(draws := v.value.draws);
        RunBodyIgnoresRandom(rules, h1, h2, t, ctx, s', fuel);
        if e.Else? { RunBodyIgnoresRandom(rules, h1, h2, e.body, ctx, s', fuel); }
      }
  }

  /** Two runs of a program without `~` produce the same vertices, edges and leaves whatever the random source says. */
  lemma RunDeterministic(rules: RuleTable, h1: Host, h2: Host, axiom: RuleCall, draws: nat, fuel: nat)
    requires ProgramNoiseFree(rules, axiom)
    requires h2 == h1.(random := h2.random)
    ensures Run(rules, h1, axiom, draws, fuel) == Run(rules, h2, axiom, draws, fuel)
  {
    CallRuleIgnoresRandom(rules, h1, h2, axiom, map[], Start(draws), fuel);
  }

  // ---- Fuel only cuts a run short ----

  lemma {:induction false} CallRuleFuel(rules: RuleTable, h: Host, call: RuleCall, ctx: Context, s: State, fuel: nat, more: nat)
    requires fuel <= more
    requires CallRule(rules, h, call, ctx, s, fuel) != Err(OutOfFuel)
    ensures CallRule(rules, h, call, ctx, s, more) == CallRule(rules, h, call, ctx, s, fuel)
    decreases fuel, 0
  {
    if call.name in rules && |rules[call.name].params| == |call.args| {
      var def := rules[call.name];
      var args := EvalArgs(call.args, ctx, h.random, s.draws);
      if args.Ok? {
        RunBodyFuel(rules, h, def.body, Bind(def.params, args.value.val), s.(draws := args.value.draws), fuel - 1, more - 1);
      }
    }
  }

  lemma {:induction false} RunBodyFuel(rules: RuleTable, h: Host, body: seq<Inst>, ctx: Context, s: State, fuel: nat, more: nat)
    requires fuel <= more
    requires RunBody(rules, h, body, ctx, s, fuel) != Err(OutOfFuel)
    ensures RunBody(rules, h, body, ctx, s, more) == RunBody(rules, h, body, ctx, s, fuel)
    decreases fuel, BodySize(body)
  {
    if |body| > 0 {
      var r := RunInst(rules, h, body[0], ctx, s, fuel);
      RunInstFuel(rules, h, body[0], ctx, s, fuel, more);
      if r.Ok? {
        RunBodyFuel(rules, h, body[1..], ctx, r.value, fuel, more);
      }
    }
  }

  lemma {:induction false} RunInstFuel(rules: RuleTable, h: Host, inst: Inst, ctx: Context, s: State, fuel: nat, more: nat)
    requires fuel <= more
    requires RunInst(rules, h, inst, ctx, s, fuel) != Err(OutOfFuel)
    ensures RunInst(rules, h, inst, ctx, s, more) == RunInst(rules, h, inst, ctx, s, fuel)
    decreases fuel, InstSize(inst)
  {
    match inst
    case Call(c) => CallRuleFuel(rules, h, c, ctx, s, fuel, more);
    case Pitch(_) =>
    case Roll(_) =>
    case Branch(_, _) =>
    case Leaf(_, _) =>
    case Push =>
    case Pop =>
    case If(c, t, e) =>
      var v := EvalCondition(c, ctx, h.random, s.draws);
      if v.Ok? {
        var s' := s.(draws := v.value.draws);
        if v.value.val {
          RunBodyFuel(rules, h, t, ctx, s', fuel, more);
        } else if e.Else? {
          RunBodyFuel(rules, h, e.body, ctx, s', fuel, more);
        }
      }
  }

  // ---- Bodies compose; a bracket restores the turtle ----

  /** Running `a + b` runs `a`, then `b` from where `a` left off; an error in `a` ends the run. */
  lemma {:induction false} RunBodyAppend(rules: RuleTable, h: Host, a: seq<Inst>, b: seq<Inst>, ctx: Context, s: State, fuel: nat)
    ensures RunBody(rules, h, a + b, ctx, s, fuel) ==
            match RunBody(rules, h, a, ctx, s, fuel)
            case Err(e) => Err(e)
            case Ok(t) => RunBody(rules, h, b, ctx, t, fuel)
    decreases |a|
  {
    if |a| == 0 {
      assert a + b == b;
    } else {
      assert (a + b)[0] == a[0];
      assert (a + b)[1..] == a[1..] + b;
      var r := RunInst(rules, h, a[0], ctx, s, fuel);
      if r.Ok? {
        RunBodyAppend(rules, h, a[1..], b, ctx, r.value, fuel);
      }
    }
  }

  /**
   * `[ body ]`: when the body leaves the branch stack as it found it, the bracket keeps all the
   * geometry the body produced and puts the current vertex, position and orientation back.
   */
  lemma Bracket(rules: RuleTable, h: Host, body: seq<Inst>, ctx: Context, s: State, fuel: nat)
    requires RunBody(rules, h, body, ctx, Pushed(s), fuel).Ok?
    requires RunBody(rules, h, body, ctx, Pushed(s), fuel).value.queue == Pushed(s).queue
    ensures var t := RunBody(rules, h, body, ctx, Pushed(s), fuel).value;
            RunBody(rules, h, [Push] + body + [Pop], ctx, s, fuel) ==
            Ok(t.(current := s.current, pos := s.pos, quat := s.quat, queue := s.queue))
  {
    var t := RunBody(rules, h, body, ctx, Pushed(s), fuel).value;
    RunBodyAppend(rules, h, [Push] + body, [Pop], ctx, s, fuel);
    RunBodyAppend(rules, h, [Push], body, ctx, s, fuel);
    assert RunBody(rules, h, [Push], ctx, s, fuel) == Ok(Pushed(s));
    assert RunBody(rules, h, [Pop], ctx, t, fuel) == Popped(t);
    assert t.queue[..|t.queue| - 1] == s.queue;
  }

  // ---- Scoping of rule calls ----

  /**
   * A call that passes the arity check runs the body in a fresh context holding exactly the
   * parameter names; nothing else of the caller's context reaches the callee.
   */
  lemma CalleeScope(rules: RuleTable, h: Host, call: RuleCall, ctx: Context, s: State, fuel: nat)
    requires fuel > 0 && call.name in rules && |rules[call.name].params| == |call.args|
    requires EvalArgs(call.args, ctx, h.random, s.draws).Ok?
    ensures var def := rules[call.name];
            var args := EvalArgs(call.args, ctx, h.random, s.draws).value;
            Bind(def.params, args.val).Keys == (set x | x in def.params) &&
            CallRule(rules, h, call, ctx, s, fuel) ==
            RunBody(rules, h, def.body, Bind(def.params, args.val), s.(draws := args.draws), fuel - 1)
  {
    var def := rules[call.name];
    BindKeys(def.params, EvalArgs(call.args, ctx, h.random, s.draws).value.val);
  }

  /** In the callee's context, parameter i holds argument i evaluated in the caller's context (the last one, for a repeated name). */
  lemma CalleeBinding(params: seq<Name>, args: seq<Expr>, ctx: Context, random: Random, draws: nat, i: nat)
    requires |params| == |args| && EvalArgs(args, ctx, random, draws).Ok?
    requires i < |params| && params[i] !in params[i + 1..]
    ensures var callee := Bind(params, EvalArgs(args, ctx, random, draws).value.val);
            params[i] in callee &&
            EvalSum(args[i], ctx, random, draws + ArgsNoise(args[..i])) ==
            Ok(Evaluated(callee[params[i]], draws + ArgsNoise(args[..i + 1])))
  {
    forall j | i < j < |params| ensures params[j] != params[i] {
      assert params[j] == params[i + 1..][j - i - 1];
    }
    BindLookup(params, EvalArgs(args, ctx, random, draws).value.val, i);
    ArgValue(args, ctx, random, draws, i);
  }

  /** The callee depends on the caller's context only through the values of the arguments. */
  lemma OnlyArgumentsPass(rules: RuleTable, h: Host, call: RuleCall, ctx1: Context, ctx2: Context, s: State, fuel: nat)
    requires EvalArgs(call.args, ctx1, h.random, s.draws) == EvalArgs(call.args, ctx2, h.random, s.draws)
    ensures CallRule(rules, h, call, ctx1, s, fuel) == CallRule(rules, h, call, ctx2, s, fuel)
  {
  }

  /** Calling an undefined rule raises; so does a call with the wrong number of arguments. */
  lemma CallErrors(rules: RuleTable, h: Host, call: RuleCall, ctx: Context, s: State, fuel: nat)
    requires fuel > 0
    ensures call.name !in rules ==> CallRule(rules, h, call, ctx, s, fuel) == Err(UnknownRule(call.name))
    ensures call.name in rules && |rules[call.name].params| != |call.args| ==>
              CallRule(rules, h, call, ctx, s, fuel) == Err(WrongArity(call.name))
  {
  }
}
