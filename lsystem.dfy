/**
 * The `LSystem` class of tree.py without its Blender calls: the rule table
 * built from the parse tree, and the interpreter that updates the turtle and
 * the output graph in place. Each method is proved to do what the functions
 * of module Interpreter say.
 */
module LSystems {
  import opened Results
  import opened Syntax
  import opened Expressions
  import opened Turtle
  import opened Interpreter
  import InterpreterLemmas
  import Smoothing

  class LSystem {
    const useLoose: bool
    const axiom: RuleCall
    const rules: RuleTable
    /** Geometry and the random source (mathutils and `random()` in the source). */
    const host: Host

    var vertices: seq<Point>
    var edges: seq<Edge>
    var leaves: seq<Point>
    var currentVertexIndex: nat
    var turtlePos: Vec3
    var turtleQuat: Quat
    var turtleQueue: seq<Saved>
    /** Samples taken so far from the random source. */
    var draws: nat

    /** The fields as one state value. */
    function Snapshot(): State
      reads this
    {
      State(vertices, edges, leaves, currentVertexIndex, turtlePos, turtleQuat, turtleQueue, draws)
    }

    ghost predicate Valid()
      reads this
    {
      Turtle.Valid(Snapshot())
    }

    /** `__init__`: the loose flag, the axiom, and the rule table (a later rule of the same name wins). */
    constructor (tree: ParseTree, host: Host)
      ensures useLoose == (tree.loose == "True") && axiom == tree.axiom && this.host == host
      ensures rules == Table(tree.rules)
      ensures Snapshot() == Start(0) && Valid()
    {
      var table: RuleTable := map[];
      var i := 0;
      while i < |tree.rules|
        invariant 0 <= i <= |tree.rules|
        invariant table == Table(tree.rules[..i])
      {
        var node := tree.rules[i];
        assert tree.rules[..i + 1][..i] == tree.rules[..i];
        table := table[node.name := RuleDef(node.params, node.body)];
        i := i + 1;
      }
      assert tree.rules[..i] == tree.rules;
      useLoose := tree.loose == "True";
      axiom := tree.axiom;
      rules := table;
      this.host := host;
      vertices, edges, leaves := [Point(Origin, 1.0)], [], [];
      currentVertexIndex, turtlePos, turtleQuat, turtleQueue := 0, Origin, Identity, [];
      draws := 0;
      StartValid(0);
    }

    /** `exec`: fresh turtle and graph, run the axiom in an empty context, then give the root the radius of vertex 1. */
    method Exec(fuel: nat) returns (res: Outcome)
      modifies this
      ensures res == OutcomeOf(Run(rules, host, axiom, old(draws), fuel))
      ensures res.Pass? ==> Snapshot() == Run(rules, host, axiom, old(draws), fuel).value
      ensures res.Pass? ==> Valid() && |vertices| >= 2 && vertices[0].radius == vertices[1].radius
    {
      turtlePos := Origin;
      turtleQuat := Identity;
      vertices := [Point(turtlePos, 1.0)];
      currentVertexIndex := 0;
      edges := [];
      leaves := [];
      turtleQueue := [];
      assert Snapshot() == Start(old(draws));
      res := EvalRule(axiom, map[], fuel);
      if res.Fail? {
        return;
      }
      if |vertices| < 2 {
        return Fail(MissingRootBranch);
      }
      vertices := vertices[0 := Point(vertices[0].pos, vertices[1].radius)];
      InterpreterLemmas.RunValid(rules, host, axiom, old(draws), fuel);
    }

    /** `evalRule`. */
    method EvalRule(call: RuleCall, ctx: Context, fuel: nat) returns (res: Outcome)
      modifies this
      ensures res == OutcomeOf(CallRule(rules, host, call, ctx, old(Snapshot()), fuel))
      ensures res.Pass? ==> Snapshot() == CallRule(rules, host, call, ctx, old(Snapshot()), fuel).value
      decreases fuel, 0
    {
      if fuel == 0 {
        return Fail(OutOfFuel);
      }
      if call.name !in rules {
        return Fail(UnknownRule(call.name));
      }
      var def := rules[call.name];
      if |def.params| != |call.args| {
        return Fail(WrongArity(call.name));
      }
      var newCtx := BindArguments(def.params, call.args, ctx);
      if newCtx.Err? {
        return Fail(newCtx.error);
      }
      res := EvalBody(def.body, newCtx.value, fuel - 1);
    }

    /**
     * The argument loop of `evalRule`: a fresh context, each parameter bound to its argument
     * evaluated in the caller's context `ctx`. Only the random source advances.
     */
    method BindArguments(params: seq<Name>, args: seq<Expr>, ctx: Context) returns (res: Result<Context>)
      requires |params| == |args|
      modifies this`draws
      ensures var r := EvalArgs(args, ctx, host.random, old(draws));
              (r.Err? ==> res == Err(r.error)) &&
              (r.Ok? ==> res == Ok(Bind(params, r.value.val)) && draws == r.value.draws)
    {
      var newCtx: Context := map[];
      ghost var vals: seq<real> := [];
      var i := 0;
      while i < |params|
        invariant 0 <= i <= |params|
        invariant EvalArgs(args[..i], ctx, host.random, old(draws)) == Ok(Evaluated(vals, draws))
        invariant |vals| == i && newCtx == Bind(params[..i], vals)
      {
        assert args[..i + 1][..i] == args[..i];
        var v := EvalSum(args[i], ctx, host.random, draws);
        if v.Err? {
          ArgsPrefixFails(args, ctx, host.random, old(draws), i + 1);
          return Err(v.error);
        }
        assert params[..i + 1][..i] == params[..i];
        newCtx := newCtx[params[i] := v.value.val];
        vals := vals + [v.value.val];
        draws := v.value.draws;
        i := i + 1;
      }
      assert args[..i] == args && params[..i] == params;
      res := Ok(newCtx);
    }

    /** The `for inst in ...: self.evalInstruction(inst, ctx)` loops: a body, in order, in one context. */
    method EvalBody(body: seq<Inst>, ctx: Context, fuel: nat) returns (res: Outcome)
      modifies this
      ensures res == OutcomeOf(RunBody(rules, host, body, ctx, old(Snapshot()), fuel))
      ensures res.Pass? ==> Snapshot() == RunBody(rules, host, body, ctx, old(Snapshot()), fuel).value
      decreases fuel, BodySize(body)
    {
      var k := 0;
      while k < |body|
        invariant 0 <= k <= |body|
        invariant RunBody(rules, host, body, ctx, old(Snapshot()), fuel) == RunBody(rules, host, body[k..], ctx, Snapshot(), fuel)
      {
        assert body[k..][0] == body[k] && body[k..][1..] == body[k + 1..];
        ElementSmaller(body, k);
        var r := EvalInstruction(body[k], ctx, fuel);
        if r.Fail? {
          return r;
        }
        k := k + 1;
      }
      assert body[k..] == [];
      return Pass;
    }

    /** `evalInstruction`. */
    method EvalInstruction(inst: Inst, ctx: Context, fuel: nat) returns (res: Outcome)
      modifies this
      ensures res == OutcomeOf(RunInst(rules, host, inst, ctx, old(Snapshot()), fuel))
      ensures res.Pass? ==> Snapshot() == RunInst(rules, host, inst, ctx, old(Snapshot()), fuel).value
      decreases fuel, InstSize(inst)
    {
      match inst
      case Call(c) =>
        res := EvalRule(c, ctx, fuel);
      case Pitch(a) =>
        var v := EvalSum(a, ctx, host.random, draws);
        if v.Err? {
          return Fail(v.error);
        }
        draws := v.value.draws;
        Turn(AxisX, v.value.val);
        res := Pass;
      case Roll(a) =>
        var v := EvalSum(a, ctx, host.random, draws);
        if v.Err? {
          return Fail(v.error);
        }
        draws := v.value.draws;
        Turn(AxisZ, v.value.val);
        res := Pass;
      case Branch(l, r) =>
        var vl := EvalSum(l, ctx, host.random, draws);
        if vl.Err? {
          return Fail(vl.error);
        }
        var vr := EvalSum(r, ctx, host.random, vl.value.draws);
        if vr.Err? {
          return Fail(vr.error);
        }
        draws := vr.value.draws;
        CreateBranch(vl.value.val, vr.value.val);
        res := Pass;
      case Leaf(l, r) =>
        var vl := EvalSum(l, ctx, host.random, draws);
        if vl.Err? {
          return Fail(vl.error);
        }
        var vr := EvalSum(r, ctx, host.random, vl.value.draws);
        if vr.Err? {
          return Fail(vr.error);
        }
        draws := vr.value.draws;
        CreateLeaf(vl.value.val, vr.value.val);
        res := Pass;
      case Push =>
        PushPos();
        res := Pass;
      case Pop =>
        res := PopPos();
      case If(c, t, e) =>
        var v := EvalCondition(c, ctx, host.random, draws);
        if v.Err? {
          return Fail(v.error);
        }
        draws := v.value.draws;
        if v.value.val {
          res := EvalBody(t, ctx, fuel);
        } else if e.Else? {
          res := EvalBody(e.body, ctx, fuel);
        } else {
          res := Pass;
        }
    }

    /** `pitch` about the local X axis, `roll` about the local Z axis; only the orientation changes. */
    method Turn(axis: Vec3, degrees: real)
      modifies this
      ensures turtleQuat == host.turn(old(turtleQuat), axis, degrees)
      ensures Snapshot() == Turned(host, old(Snapshot()), axis, degrees)
    {
      turtleQuat := host.turn(turtleQuat, axis, degrees);
    }

    /** `createBranch`: one new vertex, one new edge from the old current vertex to it, and it becomes current. */
    method CreateBranch(length: real, radius: real)
      modifies this
      ensures turtlePos == Advance(host, old(turtlePos), old(turtleQuat), length)
      ensures vertices == old(vertices) + [Point(turtlePos, radius)]
      ensures edges == old(edges) + [Edge(old(currentVertexIndex), |vertices| - 1)]
      ensures currentVertexIndex == |vertices| - 1
      ensures leaves == old(leaves) && turtleQuat == old(turtleQuat) && turtleQueue == old(turtleQueue) && draws == old(draws)
      ensures Snapshot() == AddBranch(host, old(Snapshot()), length, radius)
    {
      turtlePos := Advance(host, turtlePos, turtleQuat, length);
      vertices := vertices + [Point(turtlePos, radius)];
      edges := edges + [Edge(currentVertexIndex, |vertices| - 1)];
      currentVertexIndex := |vertices| - 1;
    }

    /** `createLeaf`: one new leaf where the turtle moves to; no vertex, no edge, the same current vertex. */
    method CreateLeaf(length: real, radius: real)
      modifies this
      ensures turtlePos == Advance(host, old(turtlePos), old(turtleQuat), length)
      ensures leaves == old(leaves) + [Point(turtlePos, radius)]
      ensures vertices == old(vertices) && edges == old(edges) && currentVertexIndex == old(currentVertexIndex)
      ensures turtleQuat == old(turtleQuat) && turtleQueue == old(turtleQueue) && draws == old(draws)
      ensures Snapshot() == AddLeaf(host, old(Snapshot()), length, radius)
    {
      turtlePos := Advance(host, turtlePos, turtleQuat, length);
      leaves := leaves + [Point(turtlePos, radius)];
    }

    /** `pushPos`: save the current vertex, position and orientation on top of the stack. */
    method PushPos()
      modifies this
      ensures turtleQueue == old(turtleQueue) + [Saved(currentVertexIndex, turtlePos, turtleQuat)]
      ensures Snapshot() == Pushed(old(Snapshot()))
    {
      turtleQueue := turtleQueue + [Saved(currentVertexIndex, turtlePos, turtleQuat)];
    }

    /** `popPos`: restore the top of the stack and drop it; an empty stack raises and changes nothing. */
    method PopPos() returns (res: Outcome)
      modifies this
      ensures res == OutcomeOf(Popped(old(Snapshot())))
      ensures res.Fail? <==> old(turtleQueue) == []
      ensures res.Fail? ==> unchanged(this)
      ensures res.Pass? ==> Snapshot() == Popped(old(Snapshot())).value
      ensures res.Pass? ==> turtleQueue == old(turtleQueue)[..|old(turtleQueue)| - 1] &&
                            old(turtleQueue)[|old(turtleQueue)| - 1] == Saved(currentVertexIndex, turtlePos, turtleQuat)
    {
      if |turtleQueue| == 0 {
        return Fail(EmptyStack);
      }
      var top := turtleQueue[|turtleQueue| - 1];
      turtleQueue := turtleQueue[..|turtleQueue| - 1];
      currentVertexIndex, turtlePos, turtleQuat := top.index, top.pos, top.quat;
      res := Pass;
    }

    /** The `use_loose` part of `smoothTree`; with the loose flag off no flag is written. */
    method SmoothTree(loose: array<bool>)
      requires Valid() && loose.Length == |vertices|
      modifies loose
      ensures useLoose ==> forall v :: 0 <= v < loose.Length ==> (loose[v] <==> !Smoothing.Cleared(edges, v))
      ensures !useLoose ==> unchanged(loose)
    {
      if useLoose {
        EdgesInRange(Snapshot());
        Smoothing.MarkLoose(edges, loose);
      }
    }
  }
}
