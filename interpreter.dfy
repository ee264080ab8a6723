/**
 * The rule interpreter of tree.py (`exec`, `evalRule`, `evalInstruction`) as
 * functions on a turtle state. The class `LSystem` runs the same steps in
 * place and is proved to agree with these functions.
 *
 * Rule calls may recurse without bound, so every call carries `fuel`: the
 * number of rule calls it may still nest. Running out of it is an error, as
 * exceeding Python's recursion limit is.
 */
module Interpreter {
  import opened Results
  import opened Syntax
  import opened Expressions
  import opened Turtle

  // ---- Arguments and the callee's context ----

  /** The samples that evaluating all of `args` draws. */
  function ArgsNoise(args: seq<Expr>): nat
  {
    if |args| == 0 then 0 else ArgsNoise(args[..|args| - 1]) + NoiseCount(args[|args| - 1])
  }

  /** The arguments of a call, evaluated left to right in the caller's context. */
  function EvalArgs(args: seq<Expr>, ctx: Context, random: Random, draws: nat): (r: Result<Evaluated<seq<real>>>)
    ensures r.Ok? ==> |r.value.val| == |args| && r.value.draws == draws + ArgsNoise(args)
  {
    if |args| == 0 then Ok(Evaluated([], draws))
    else
      var init := EvalArgs(args[..|args| - 1], ctx, random, draws);
      if init.Err? then Err(init.error) else
      var last := EvalSum(args[|args| - 1], ctx, random, init.value.draws);
      if last.Err? then Err(last.error) else
      Ok(Evaluated(init.value.val + [last.value.val], last.value.draws))
  }

  /** Argument i is its expression evaluated in the caller's context, right after the arguments before it. */
  lemma {:induction false} ArgValue(args: seq<Expr>, ctx: Context, random: Random, draws: nat, i: nat)
    requires EvalArgs(args, ctx, random, draws).Ok? && i < |args|
    ensures EvalSum(args[i], ctx, random, draws + ArgsNoise(args[..i])) ==
            Ok(Evaluated(EvalArgs(args, ctx, random, draws).value.val[i], draws + ArgsNoise(args[..i + 1])))
  {
    var n := |args|;
    assert args[..n - 1][..i] == args[..i];
    if i < n - 1 {
      assert args[..n - 1][..i + 1] == args[..i + 1];
      ArgValue(args[..n - 1], ctx, random, draws, i);
    } else {
      assert args[..i + 1] == args;
    }
  }

  /** Once a prefix of the arguments raises, the whole argument list raises with the same error. */
  lemma {:induction false} ArgsPrefixFails(args: seq<Expr>, ctx: Context, random: Random, draws: nat, k: nat)
    requires k <= |args| && EvalArgs(args[..k], ctx, random, draws).Err?
    ensures EvalArgs(args, ctx, random, draws) == EvalArgs(args[..k], ctx, random, draws)
    decreases |args| - k
  {
    if k < |args| {
      var n := |args|;
      assert args[..n - 1][..k] == args[..k];
      ArgsPrefixFails(args[..n - 1], ctx, random, draws, k);
    } else {
      assert args[..k] == args;
    }
  }

  /** The callee's context, built by binding the parameters in order; a repeated parameter keeps its last argument. */
  function Bind(params: seq<Name>, vals: seq<real>): Context
    requires |params| == |vals|
  {
    if |params| == 0 then map[]
    else Bind(params[..|params| - 1], vals[..|vals| - 1])[params[|params| - 1] := vals[|vals| - 1]]
  }

  /** The callee's context binds exactly the parameter names. */
  lemma {:induction false} BindKeys(params: seq<Name>, vals: seq<real>)
    requires |params| == |vals|
    ensures Bind(params, vals).Keys == set x | x in params
  {
    if |params| > 0 {
      var n := |params|;
      BindKeys(params[..n - 1], vals[..n - 1]);
      assert params == params[..n - 1] + [params[n - 1]];
    }
  }

  /** Each parameter is bound to its (last) argument. */
  lemma {:induction false} BindLookup(params: seq<Name>, vals: seq<real>, i: nat)
    requires |params| == |vals| && i < |params|
    requires forall j :: i < j < |params| ==> params[j] != params[i]
    ensures params[i] in Bind(params, vals) && Bind(params, vals)[params[i]] == vals[i]
  {
    var n := |params|;
    if i < n - 1 {
      BindLookup(params[..n - 1], vals[..n - 1], i);
    }
  }

  // ---- The interpreter ----

  /** `evalRule`: look the rule up, check the arity, bind the arguments in a fresh context, run the body. */
  function CallRule(rules: RuleTable, h: Host, call: RuleCall, ctx: Context, s: State, fuel: nat): Result<State>
    decreases fuel, 0
  {
    if fuel == 0 then Err(OutOfFuel)
    else if call.name !in rules then Err(UnknownRule(call.name))
    else
      var def := rules[call.name];
      if |def.params| != |call.args| then Err(WrongArity(call.name))
      else
        var args := EvalArgs(call.args, ctx, h.random, s.draws);
        if args.Err? then Err(args.error)
        else RunBody(rules, h, def.body, Bind(def.params, args.value.val), s.(draws := args.value.draws), fuel - 1)
  }

  /** The instructions of a body in order, all in the same context; the first error stops the run. */
  function RunBody(rules: RuleTable, h: Host, body: seq<Inst>, ctx: Context, s: State, fuel: nat): Result<State>
    decreases fuel, BodySize(body)
  {
    if |body| == 0 then Ok(s)
    else
      var r := RunInst(rules, h, body[0], ctx, s, fuel);
      if r.Err? then r else RunBody(rules, h, body[1..], ctx, r.value, fuel)
  }

  /** `evalInstruction`: dispatch on the kind of instruction. */
  function RunInst(rules: RuleTable, h: Host, inst: Inst, ctx: Context, s: State, fuel: nat): Result<State>
    decreases fuel, InstSize(inst)
  {
    match inst
    case Call(c) => CallRule(rules, h, c, ctx, s, fuel)
    case Pitch(a) =>
      var v := EvalSum(a, ctx, h.random, s.draws);
      if v.Err? then Err(v.error) else Ok(Turned(h, s.(draws := v.value.draws), AxisX, v.value.val))
    case Roll(a) =>
      var v := EvalSum(a, ctx, h.random, s.draws);
      if v.Err? then Err(v.error) else Ok(Turned(h, s.(draws := v.value.draws), AxisZ, v.value.val))
    case Branch(l, r) =>
      var vl := EvalSum(l, ctx, h.random, s.draws);
      if vl.Err? then Err(vl.error) else
      var vr := EvalSum(r, ctx, h.random, vl.value.draws);
      if vr.Err? then Err(vr.error) else
      Ok(AddBranch(h, s.(draws := vr.value.draws), vl.value.val, vr.value.val))
    case Leaf(l, r) =>
      var vl := EvalSum(l, ctx, h.random, s.draws);
      if vl.Err? then Err(vl.error) else
      var vr := EvalSum(r, ctx, h.random, vl.value.draws);
      if vr.Err? then Err(vr.error) else
      Ok(AddLeaf(h, s.(draws := vr.value.draws), vl.value.val, vr.value.val))
    case Push => Ok(Pushed(s))
    case Pop => Popped(s)
    case If(c, t, e) =>
      var v := EvalCondition(c, ctx, h.random, s.draws);
      if v.Err? then Err(v.error) else
      var s' := s.(draws := v.value.draws);
      if v.value.val then RunBody(rules, h, t, ctx, s', fuel)
      else (match e
            case NoElse => Ok(s')
            case Else(b) => RunBody(rules, h, b, ctx, s', fuel))
  }

  /** `exec`: a fresh turtle and graph, the axiom called in an empty context, then the root fix-up. */
  function Run(rules: RuleTable, h: Host, axiom: RuleCall, draws: nat, fuel: nat): Result<State>
  {
    var r := CallRule(rules, h, axiom, map[], Start(draws), fuel);
    if r.Err? then r else RootFixed(r.value)
  }
}
