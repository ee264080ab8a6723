/**
 * The parse tree of an L-system program, one constructor per grammar
 * alternative of tree.py. Parentheses leave no node of their own.
 */
module Syntax {
  import opened Results

  type Name = string

  /** `add`, `sub`, `mul`, `div` of the `sum` and `product` rules. */
  datatype ArithOp = Plus | Minus | Times | Divide

  /** The `sum`/`product`/`atom` rules. A number literal is held as its value. */
  datatype Expr =
    | Number(value: real)
    | Neg(operand: Expr)
    | Var(name: Name)
    | Binary(op: ArithOp, left: Expr, right: Expr)
    | Noise(base: Expr, spread: Expr)

  /** `eq`, `neq`, `lt`, `let`, `gt`, `get` of the `cond` rule. */
  datatype Relation = Eq | Neq | Lt | Le | Gt | Ge

  /** The `binaryop` rule. */
  datatype Cond =
    | And(left: Cond, right: Cond)
    | Or(left: Cond, right: Cond)
    | Not(operand: Cond)
    | Compare(rel: Relation, lhs: Expr, rhs: Expr)

  /** `rulecall`: a rule name and its argument expressions. */
  datatype RuleCall = RuleCall(name: Name, args: seq<Expr>)

  /** The alternatives of `instructions`. */
  datatype Inst =
    | Call(call: RuleCall)
    | Pitch(angle: Expr)
    | Roll(angle: Expr)
    | Branch(length: Expr, radius: Expr)
    | Leaf(length: Expr, radius: Expr)
    | Push
    | Pop
    | If(test: Cond, thenBody: seq<Inst>, elseBody: Else)

  /** The optional `else` part of a conditional. */
  datatype Else = NoElse | Else(body: seq<Inst>)

  /** One `rule` node: name, parameter names and body. */
  datatype RuleNode = RuleNode(name: Name, params: seq<Name>, body: seq<Inst>)

  /** The `rule_set` node: the `loose:` token, the axiom and the rules in source order. */
  datatype ParseTree = ParseTree(loose: string, axiom: RuleCall, rules: seq<RuleNode>)

  /** What the rule table keeps of a rule. */
  datatype RuleDef = RuleDef(params: seq<Name>, body: seq<Inst>)

  type RuleTable = map<Name, RuleDef>

  /** The rule table built from the rule nodes in order; a later rule of the same name replaces an earlier one. */
  function Table(nodes: seq<RuleNode>): RuleTable
  {
    if |nodes| == 0 then map[]
    else
      var last := nodes[|nodes| - 1];
      Table(nodes[..|nodes| - 1])[last.name := RuleDef(last.params, last.body)]
  }

  /** The table holds a rule exactly under the names some node declares, and under each name the last such node. */
  lemma {:induction false} TableLookup(nodes: seq<RuleNode>, i: nat)
    requires i < |nodes|
    ensures nodes[i].name in Table(nodes)
    ensures (forall j :: i < j < |nodes| ==> nodes[j].name != nodes[i].name) ==>
              Table(nodes)[nodes[i].name] == RuleDef(nodes[i].params, nodes[i].body)
  {
    if i < |nodes| - 1 {
      TableLookup(nodes[..|nodes| - 1], i);
    }
  }

  lemma {:induction false} TableNames(nodes: seq<RuleNode>, name: Name)
    requires name in Table(nodes)
    ensures exists i :: 0 <= i < |nodes| && nodes[i].name == name
  {
    var last := nodes[|nodes| - 1];
    if name != last.name {
      TableNames(nodes[..|nodes| - 1], name);
      var i :| 0 <= i < |nodes| - 1 && nodes[..|nodes| - 1][i].name == name;
      assert nodes[i].name == name;
    }
  }

  // Sizes, for the termination of the interpreter.

  function InstSize(i: Inst): (n: nat)
    ensures n >= 1
  {
    match i
    case If(_, t, NoElse) => 1 + BodySize(t)
    case If(_, t, Else(e)) => 1 + BodySize(t) + BodySize(e)
    case _ => 1
  }

  function BodySize(b: seq<Inst>): nat
  {
    if |b| == 0 then 0 else 1 + InstSize(b[0]) + BodySize(b[1..])
  }

  lemma {:induction false} ElementSmaller(b: seq<Inst>, k: nat)
    requires k < |b|
    ensures InstSize(b[k]) < BodySize(b)
  {
    if k > 0 {
      ElementSmaller(b[1..], k - 1);
    }
  }

  // Static facts about expressions.

  /** The variables an expression reads. */
  function FreeVars(e: Expr): set<Name>
  {
    match e
    case Number(_) => {}
    case Neg(a) => FreeVars(a)
    case Var(x) => {x}
    case Binary(_, a, b) => FreeVars(a) + FreeVars(b)
    case Noise(a, b) => FreeVars(a) + FreeVars(b)
  }

  function CondVars(c: Cond): set<Name>
  {
    match c
    case And(a, b) => CondVars(a) + CondVars(b)
    case Or(a, b) => CondVars(a) + CondVars(b)
    case Not(a) => CondVars(a)
    case Compare(_, a, b) => FreeVars(a) + FreeVars(b)
  }

  /** How many `~` nodes an expression holds: each evaluation of the expression draws that many samples. */
  function NoiseCount(e: Expr): nat
  {
    match e
    case Number(_) => 0
    case Neg(a) => NoiseCount(a)
    case Var(_) => 0
    case Binary(_, a, b) => NoiseCount(a) + NoiseCount(b)
    case Noise(a, b) => NoiseCount(a) + NoiseCount(b) + 1
  }

  function CondNoiseCount(c: Cond): nat
  {
    match c
    case And(a, b) => CondNoiseCount(a) + CondNoiseCount(b)
    case Or(a, b) => CondNoiseCount(a) + CondNoiseCount(b)
    case Not(a) => CondNoiseCount(a)
    case Compare(_, a, b) => NoiseCount(a) + NoiseCount(b)
  }

  /** An expression holds no division. */
  predicate DivisionFree(e: Expr)
  {
    match e
    case Number(_) => true
    case Neg(a) => DivisionFree(a)
    case Var(_) => true
    case Binary(op, a, b) => op != Divide && DivisionFree(a) && DivisionFree(b)
    case Noise(a, b) => DivisionFree(a) && DivisionFree(b)
  }

  predicate ArgsNoiseFree(args: seq<Expr>)
  {
    forall k :: 0 <= k < |args| ==> NoiseCount(args[k]) == 0
  }

  /** An instruction holds no `~` anywhere, conditions and nested bodies included. */
  predicate InstNoiseFree(i: Inst)
  {
    match i
    case Call(c) => ArgsNoiseFree(c.args)
    case Pitch(a) => NoiseCount(a) == 0
    case Roll(a) => NoiseCount(a) == 0
    case Branch(l, r) => NoiseCount(l) == 0 && NoiseCount(r) == 0
    case Leaf(l, r) => NoiseCount(l) == 0 && NoiseCount(r) == 0
    case Push => true
    case Pop => true
    case If(c, t, NoElse) => CondNoiseCount(c) == 0 && BodyNoiseFree(t)
    case If(c, t, Else(e)) => CondNoiseCount(c) == 0 && BodyNoiseFree(t) && BodyNoiseFree(e)
  }

  predicate BodyNoiseFree(b: seq<Inst>)
  {
    forall k :: 0 <= k < |b| ==> InstNoiseFree(b[k])
  }

  /** No rule of the table and no argument of the axiom holds a `~`. */
  /** No rule body of the table holds a `~` node. */
  predicate RulesNoiseFree(rules: RuleTable)
  {
    forall name :: name in rules ==> BodyNoiseFree(rules[name].body)
  }

  predicate ProgramNoiseFree(rules: RuleTable, axiom: RuleCall)
  {
    ArgsNoiseFree(axiom.args) && RulesNoiseFree(rules)
  }
}
