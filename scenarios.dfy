/** Small hand-built programs in the style of the `init` rules, and what running them gives. */
module Scenarios {
  import opened Results
  import opened Syntax
  import opened Expressions
  import opened Turtle
  import opened Interpreter

  /** `init(): ^(2,1)^(3,0.5);` */
  const TwoBranches: RuleTable :=
    map["init" := RuleDef([], [Branch(Number(2.0), Number(1.0)), Branch(Number(3.0), Number(0.5))])]

  /** Two branches give three vertices on a path, edges (0,1) and (1,2), no leaves, and a root of radius 1. */
  lemma TwoBranchesRun(h: Host, draws: nat, fuel: nat)
    requires fuel >= 1
    ensures var p1 := Advance(h, Origin, Identity, 2.0);
            var p2 := Advance(h, p1, Identity, 3.0);
            Run(TwoBranches, h, RuleCall("init", []), draws, fuel) ==
            Ok(State([Point(Origin, 1.0), Point(p1, 1.0), Point(p2, 0.5)], [Edge(0, 1), Edge(1, 2)], [],
                     2, p2, Identity, [], draws))
  {
    var body := TwoBranches["init"].body;
    var s0 := Start(draws);
    var s1 := AddBranch(h, s0, 2.0, 1.0);
    var s2 := AddBranch(h, s1, 3.0, 0.5);
    assert RunInst(TwoBranches, h, body[0], map[], s0, fuel - 1) == Ok(s1);
    assert RunInst(TwoBranches, h, body[1], map[], s1, fuel - 1) == Ok(s2);
    assert RunBody(TwoBranches, h, body[1..][1..], map[], s2, fuel - 1) == Ok(s2);
    assert RunBody(TwoBranches, h, body, map[], s0, fuel - 1) == Ok(s2);
    assert CallRule(TwoBranches, h, RuleCall("init", []), map[], s0, fuel) == Ok(s2);
    assert s2.vertices == [Point(Origin, 1.0), Point(s1.pos, 1.0), Point(s2.pos, 0.5)];
    assert s2.edges == [Edge(0, 1), Edge(1, 2)];
    assert s2.vertices[0 := Point(s2.vertices[0].pos, s2.vertices[1].radius)] == s2.vertices;
  }

  /** `init(d): callee(); callee(): ^(d, 1);` — the caller's `d` is not passed on. */
  const Isolated: RuleTable :=
    map["init" := RuleDef(["d"], [Call(RuleCall("callee", []))]),
        "callee" := RuleDef([], [Branch(Var("d"), Number(1.0))])]

  /** The callee cannot see the caller's variable: the run raises for the unbound `d`. */
  lemma IsolatedRun(h: Host, draws: nat, fuel: nat)
    requires fuel >= 2
    ensures Run(Isolated, h, RuleCall("init", [Number(5.0)]), draws, fuel) == Err(UnboundVariable("d"))
  {
    var s0 := Start(draws);
    var callee := RuleCall("callee", []);
    assert EvalArgs([Number(5.0)], map[], h.random, draws) == Ok(Evaluated([5.0], draws)) by {
      assert [Number(5.0)][..0] == [];
      assert EvalArgs([Number(5.0)][..0], map[], h.random, draws) == Ok(Evaluated([], draws));
      assert [] + [5.0] == [5.0];
    }
    assert RunBody(Isolated, h, Isolated["callee"].body, map[], s0, fuel - 2) == Err(UnboundVariable("d"));
    assert CallRule(Isolated, h, callee, map["d" := 5.0], s0, fuel - 1) == Err(UnboundVariable("d"));
    assert RunBody(Isolated, h, Isolated["init"].body, map["d" := 5.0], s0, fuel - 1) == Err(UnboundVariable("d"));
  }

  /** `if 1>0: ^(1,1); else: ^(2,2);` */
  const AlwaysThen := If(Compare(Gt, Number(1.0), Number(0.0)),
                         [Branch(Number(1.0), Number(1.0))], Else([Branch(Number(2.0), Number(2.0))]))
  /** The same test reversed, with and without the else part. */
  const AlwaysElse := If(Compare(Lt, Number(1.0), Number(0.0)),
                         [Branch(Number(1.0), Number(1.0))], Else([Branch(Number(2.0), Number(2.0))]))
  const NeverThen := If(Compare(Lt, Number(1.0), Number(0.0)), [Branch(Number(1.0), Number(1.0))], NoElse)

  /** A true test runs the then-body only; a false one the else-body, or nothing when there is none. */
  lemma ConditionalDispatch(rules: RuleTable, h: Host, ctx: Context, s: State, fuel: nat)
    ensures RunInst(rules, h, AlwaysThen, ctx, s, fuel) == Ok(AddBranch(h, s, 1.0, 1.0))
    ensures RunInst(rules, h, AlwaysElse, ctx, s, fuel) == Ok(AddBranch(h, s, 2.0, 2.0))
    ensures RunInst(rules, h, NeverThen, ctx, s, fuel) == Ok(s)
  {
    assert RunBody(rules, h, [Branch(Number(1.0), Number(1.0))], ctx, s, fuel) == Ok(AddBranch(h, s, 1.0, 1.0)) by {
      assert RunBody(rules, h, [Branch(Number(1.0), Number(1.0))][1..], ctx, AddBranch(h, s, 1.0, 1.0), fuel) == Ok(AddBranch(h, s, 1.0, 1.0));
    }
    assert RunBody(rules, h, [Branch(Number(2.0), Number(2.0))], ctx, s, fuel) == Ok(AddBranch(h, s, 2.0, 2.0)) by {
      assert RunBody(rules, h, [Branch(Number(2.0), Number(2.0))][1..], ctx, AddBranch(h, s, 2.0, 2.0), fuel) == Ok(AddBranch(h, s, 2.0, 2.0));
    }
  }
}
