/**
 * The expression evaluator: `evalSum` and `evalCondition` of tree.py.
 *
 * The process-wide random source is an oracle `random` giving the k-th
 * sample of `random()`; evaluation threads `draws`, the number of samples
 * taken so far, so every `~` node consumes the next sample.
 */
module Expressions {
  import opened Results
  import opened Syntax

  /** Variable bindings of one rule activation. */
  type Context = map<Name, real>

  /** The k-th sample of the random source. */
  type Random = nat -> real

  /** A value together with the position of the random source after computing it. */
  datatype Evaluated<+T> = Evaluated(val: T, draws: nat)

  /** Every sample of the random source lies in [0, 1), as Python's `random()` promises. */
  ghost predicate UnitSamples(random: Random)
  {
    forall k :: 0.0 <= random(k) < 1.0
  }

  /** `evalSum`: evaluates operands left to right; a `~` draws one sample after both of its operands. */
  function EvalSum(e: Expr, ctx: Context, random: Random, draws: nat): (r: Result<Evaluated<real>>)
    ensures r.Ok? ==> r.value.draws == draws + NoiseCount(e)
  {
    match e
    case Number(v) => Ok(Evaluated(v, draws))
    case Neg(a) =>
      var ra := EvalSum(a, ctx, random, draws);
      if ra.Err? then Err(ra.error) else Ok(Evaluated(-ra.value.val, ra.value.draws))
    case Var(x) =>
      if x in ctx then Ok(Evaluated(ctx[x], draws)) else Err(UnboundVariable(x))
    case Binary(op, a, b) =>
      var ra := EvalSum(a, ctx, random, draws);
      if ra.Err? then Err(ra.error) else
      var rb := EvalSum(b, ctx, random, ra.value.draws);
      if rb.Err? then Err(rb.error) else
      var v := Arith(op, ra.value.val, rb.value.val);
      if v.Err? then Err(v.error) else Ok(Evaluated(v.value, rb.value.draws))
    case Noise(a, b) =>
      var ra := EvalSum(a, ctx, random, draws);
      if ra.Err? then Err(ra.error) else
      var rb := EvalSum(b, ctx, random, ra.value.draws);
      if rb.Err? then Err(rb.error) else
      var k := rb.value.draws;
      Ok(Evaluated(Perturb(ra.value.val, rb.value.val, random(k)), k + 1))
  }

  /** The four arithmetic operators; dividing by zero raises. */
  function Arith(op: ArithOp, x: real, y: real): Result<real>
  {
    match op
    case Plus => Ok(x + y)
    case Minus => Ok(x - y)
    case Times => Ok(x * y)
    case Divide => if y == 0.0 then Err(DivisionByZero) else Ok(x / y)
  }

  /** `base + spread*(r*2.0 - 1.0)` for the sample r. */
  function Perturb(base: real, spread: real, sample: real): real
  {
    base + spread * (sample * 2.0 - 1.0)
  }

  function Holds(rel: Relation, x: real, y: real): bool
  {
    match rel
    case Eq => x == y
    case Neq => x != y
    case Lt => x < y
    case Le => x <= y
    case Gt => x > y
    case Ge => x >= y
  }

  /** `evalCondition`: `and` and `or` short-circuit, so their right operand may draw no sample at all. */
  function EvalCondition(c: Cond, ctx: Context, random: Random, draws: nat): (r: Result<Evaluated<bool>>)
    ensures r.Ok? ==> draws <= r.value.draws <= draws + CondNoiseCount(c)
  {
    match c
    case And(a, b) =>
      var ra := EvalCondition(a, ctx, random, draws);
      if ra.Err? then Err(ra.error)
      else if !ra.value.val then Ok(ra.value)
      else EvalCondition(b, ctx, random, ra.value.draws)
    case Or(a, b) =>
      var ra := EvalCondition(a, ctx, random, draws);
      if ra.Err? then Err(ra.error)
      else if ra.value.val then Ok(ra.value)
      else EvalCondition(b, ctx, random, ra.value.draws)
    case Not(a) =>
      var ra := EvalCondition(a, ctx, random, draws);
      if ra.Err? then Err(ra.error) else Ok(Evaluated(!ra.value.val, ra.value.draws))
    case Compare(rel, a, b) =>
      var ra := EvalSum(a, ctx, random, draws);
      if ra.Err? then Err(ra.error) else
      var rb := EvalSum(b, ctx, random, ra.value.draws);
      if rb.Err? then Err(rb.error) else
      Ok(Evaluated(Holds(rel, ra.value.val, rb.value.val), rb.value.draws))
  }

  // ---- Noise ----

  function Abs(x: real): real
  {
    if x < 0.0 then -x else x
  }

  /** A sample in [0, 1) moves the base by at most |spread|. */
  lemma PerturbBounds(base: real, spread: real, sample: real)
    requires 0.0 <= sample < 1.0
    ensures base - Abs(spread) <= Perturb(base, spread, sample) <= base + Abs(spread)
  {
  }

  /** With samples in [0, 1), `base ~ spread` lies within |spread| of base. */
  lemma NoiseBounds(base: Expr, spread: Expr, ctx: Context, random: Random, draws: nat)
    requires UnitSamples(random)
    requires EvalSum(Noise(base, spread), ctx, random, draws).Ok?
    ensures var b := EvalSum(base, ctx, random, draws).value;
            var s := EvalSum(spread, ctx, random, b.draws).value;
            var v := EvalSum(Noise(base, spread), ctx, random, draws).value.val;
            b.val - Abs(s.val) <= v <= b.val + Abs(s.val)
  {
    var b := EvalSum(base, ctx, random, draws).value;
    var s := EvalSum(spread, ctx, random, b.draws).value;
    assert 0.0 <= random(s.draws) < 1.0;
    PerturbBounds(b.val, s.val, random(s.draws));
  }

  // ---- Locality: only the variables an expression reads matter ----

  /** Two contexts bind the same names of `vars` to the same values, and agree on which names of `vars` are unbound. */
  ghost predicate AgreeOn(ctx1: Context, ctx2: Context, vars: set<Name>)
  {
    forall x :: x in vars ==> (x in ctx1 <==> x in ctx2) && (x in ctx1 ==> ctx1[x] == ctx2[x])
  }

  lemma {:induction false} SumLocality(e: Expr, ctx1: Context, ctx2: Context, random: Random, draws: nat)
    requires AgreeOn(ctx1, ctx2, FreeVars(e))
    ensures EvalSum(e, ctx1, random, draws) == EvalSum(e, ctx2, random, draws)
  {
    match e
    case Number(_) =>
    case Var(x) =>
    case Neg(a) => SumLocality(a, ctx1, ctx2, random, draws);
    case Binary(_, a, b) =>
      SumLocality(a, ctx1, ctx2, random, draws);
      var ra := EvalSum(a, ctx1, random, draws);
      if ra.Ok? { SumLocality(b, ctx1, ctx2, random, ra.value.draws); }
    case Noise(a, b) =>
      SumLocality(a, ctx1, ctx2, random, draws);
      var ra := EvalSum(a, ctx1, random, draws);
      if ra.Ok? { SumLocality(b, ctx1, ctx2, random, ra.value.draws); }
  }

  lemma {:induction false} ConditionLocality(c: Cond, ctx1: Context, ctx2: Context, random: Random, draws: nat)
    requires AgreeOn(ctx1, ctx2, CondVars(c))
    ensures EvalCondition(c, ctx1, random, draws) == EvalCondition(c, ctx2, random, draws)
  {
    match c
    case And(a, b) =>
      ConditionLocality(a, ctx1, ctx2, random, draws);
      var ra := EvalCondition(a, ctx1, random, draws);
      if ra.Ok? { ConditionLocality(b, ctx1, ctx2, random, ra.value.draws); }
    case Or(a, b) =>
      ConditionLocality(a, ctx1, ctx2, random, draws);
      var ra := EvalCondition(a, ctx1, random, draws);
      if ra.Ok? { ConditionLocality(b, ctx1, ctx2, random, ra.value.draws); }
    case Not(a) => ConditionLocality(a, ctx1, ctx2, random, draws);
    case Compare(_, a, b) =>
      SumLocality(a, ctx1, ctx2, random, draws);
      var ra := EvalSum(a, ctx1, random, draws);
      if ra.Ok? { SumLocality(b, ctx1, ctx2, random, ra.value.draws); }
  }

  // ---- Unbound variables and totality ----

  /** Reading a variable the context does not bind raises, wherever in the expression it sits. */
  lemma {:induction false} UnboundFails(e: Expr, x: Name, ctx: Context, random: Random, draws: nat)
    requires x in FreeVars(e) && x !in ctx
    ensures EvalSum(e, ctx, random, draws).Err?
  {
    match e
    case Var(_) =>
    case Neg(a) => UnboundFails(a, x, ctx, random, draws);
    case Binary(_, a, b) =>
      var ra := EvalSum(a, ctx, random, draws);
      if x in FreeVars(a) { UnboundFails(a, x, ctx, random, draws); }
      else if ra.Ok? { UnboundFails(b, x, ctx, random, ra.value.draws); }
    case Noise(a, b) =>
      var ra := EvalSum(a, ctx, random, draws);
      if x in FreeVars(a) { UnboundFails(a, x, ctx, random, draws); }
      else if ra.Ok? { UnboundFails(b, x, ctx, random, ra.value.draws); }
  }

  /** Without division, an expression whose variables are all bound evaluates. */
  lemma {:induction false} BoundEvaluates(e: Expr, ctx: Context, random: Random, draws: nat)
    requires FreeVars(e) <= ctx.Keys && DivisionFree(e)
    ensures EvalSum(e, ctx, random, draws).Ok?
  {
    match e
    case Number(_) =>
    case Var(_) =>
    case Neg(a) => BoundEvaluates(a, ctx, random, draws);
    case Binary(_, a, b) =>
      BoundEvaluates(a, ctx, random, draws);
      BoundEvaluates(b, ctx, random, EvalSum(a, ctx, random, draws).value.draws);
    case Noise(a, b) =>
      BoundEvaluates(a, ctx, random, draws);
      BoundEvaluates(b, ctx, random, EvalSum(a, ctx, random, draws).value.draws);
  }

  // ---- Expressions without `~` ignore the random source ----

  lemma {:induction false} SumIgnoresRandom(e: Expr, ctx: Context, random1: Random, random2: Random, draws: nat)
    requires NoiseCount(e) == 0
    ensures EvalSum(e, ctx, random1, draws) == EvalSum(e, ctx, random2, draws)
  {
    match e
    case Number(_) =>
    case Var(_) =>
    case Neg(a) => SumIgnoresRandom(a, ctx, random1, random2, draws);
    case Binary(_, a, b) =>
      SumIgnoresRandom(a, ctx, random1, random2, draws);
      var ra := EvalSum(a, ctx, random1, draws);
      if ra.Ok? { SumIgnoresRandom(b, ctx, random1, random2, ra.value.draws); }
  }

  lemma {:induction false} ConditionIgnoresRandom(c: Cond, ctx: Context, random1: Random, random2: Random, draws: nat)
    requires CondNoiseCount(c) == 0
    ensures EvalCondition(c, ctx, random1, draws) == EvalCondition(c, ctx, random2, draws)
  {
    match c
    case And(a, b) =>
      ConditionIgnoresRandom(a, ctx, random1, random2, draws);
      var ra := EvalCondition(a, ctx, random1, draws);
      if ra.Ok? { ConditionIgnoresRandom(b, ctx, random1, random2, ra.value.draws); }
    case Or(a, b) =>
      ConditionIgnoresRandom(a, ctx, random1, random2, draws);
      var ra := EvalCondition(a, ctx, random1, draws);
      if ra.Ok? { ConditionIgnoresRandom(b, ctx, random1, random2, ra.value.draws); }
    case Not(a) => ConditionIgnoresRandom(a, ctx, random1, random2, draws);
    case Compare(_, a, b) =>
      SumIgnoresRandom(a, ctx, random1, random2, draws);
      var ra := EvalSum(a, ctx, random1, draws);
      if ra.Ok? { SumIgnoresRandom(b, ctx, random1, random2, ra.value.draws); }
  }
}
