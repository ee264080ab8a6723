# L-system interpreter of TreeGenerator, modelled in Dafny

TreeGenerator turns a small L-system language into a tree skeleton. A program
has a `loose:` flag, an axiom (one rule call) and parametric rules. Rule bodies
hold branch `^(length, radius)`, leaf `'(length, radius)`, pitch `$(angle)`,
roll `%(angle)`, branch-stack `[` / `]`, rule calls and `if … else …;`
conditionals. Expressions can use the noise operator `base ~ spread`.
The class `LSystem` in `tree.py` walks the parse tree like a turtle: it keeps a
position, an orientation, a current vertex and a stack of saved turtles, and
emits vertices, edges and leaves. Before Blender builds the skin mesh, the
`use_loose` flags are picked from the vertices that lie on a single edge.

The model has these modules:

- `Results` (results.dfy): the errors the interpreter raises, plus `Option`, `Result` and `Outcome`.
- `Syntax` (syntax.dfy): one datatype alternative per grammar alternative of `tree.py`. It also has the rule table `__init__` builds (`Table`) and static facts: free variables, count of `~` nodes, sizes.
- `Expressions` (expressions.dfy): `evalSum` and `evalCondition` as functions. The random source is an oracle `random: nat -> real`. A `draws` counter is threaded through evaluation, so each `~` takes the next sample.
- `Turtle` (turtle.dfy): the state one execution mutates, as a value. It holds the steps `createBranch`, `createLeaf`, `pitch`/`roll`, `pushPos`, `popPos` and the root fix-up of `exec`. It also holds the graph invariant `Valid`: the graph is a tree in which edge k leads from an earlier vertex to vertex k+1, and every vertex index held by the turtle is in range.
- `Interpreter` (interpreter.dfy): `evalRule`, `evalInstruction` and `exec` as functions (`CallRule`, `RunBody`, `RunInst`, `Run`). A `fuel` argument bounds how deeply rule calls may nest.
- `InterpreterLemmas` (interpreter_lemmas.dfy) proves these properties:
  - the invariant is kept and the graph only grows;
  - a program without `~` gives the same result for any random source;
  - more fuel never changes a result that did not run out of fuel;
  - the callee context holds exactly the parameters;
  - the behaviour of a `[ … ]` bracket.
- `Scenarios` (scenarios.dfy): small hand-built programs with their exact outcome.
- `Smoothing` (smoothing.dfy): the `edgeCount` loop of `smoothTree` and the `use_loose` writes, over a boolean array.
- `LSystems` (lsystem.dfy): the class `LSystem`, with the source's fields as `seq` fields. Its methods update them in place, and each method is proved to end in the state that the functions of `Interpreter` and `Turtle` compute.

Behaviour of the code that is easy to misread, and that the model follows:

- Division by zero raises (`ZeroDivisionError` on Python floats) and does not give inf/nan.
- `createLeaf` moves the turtle to the leaf (tree.py:290).
- `exec`'s root fix-up reads `vertices[1]` without a guard, so a run that creates no branch raises (`MissingRootBranch`).
- `and` and `or` short-circuit, as Python's do. The right operand then is not evaluated: it raises no error and draws no sample.
- A rule defined twice keeps its last definition. A parameter named twice keeps its last argument.

## Model

| member | source | states |
|---|---|---|
| Syntax.TableLookup | tree.py:83-86 | every rule node's name is a key of the rule table; a name's entry is the parameters and body of its last definition |
| Syntax.TableNames | tree.py:83-86 | the table has no key that no rule node declares |
| LSystems.LSystem.constructor | tree.py:77-86 | the loose flag is true exactly when the token is `True`; the axiom is the parse tree's; the rule table is built by the loop over the rule nodes; the fresh turtle and graph satisfy the invariant |
| Expressions.EvalSum | tree.py:254-274 | a successful evaluation takes exactly one sample from the random source per `~` node |
| Expressions.EvalCondition | tree.py:233-251 | a condition takes at most one sample per `~` node; with short-circuiting it may take fewer |
| Expressions.PerturbBounds | tree.py:274 | `base + spread*(2r-1)` with r in [0,1) lies in [base-\|spread\|, base+\|spread\|] |
| Expressions.NoiseBounds | tree.py:273-274 | with samples in [0,1), `base ~ spread` lies within \|spread\| of the value of base |
| Expressions.UnboundFails | tree.py:267-272 | an expression that reads a variable its context does not bind raises |
| Expressions.BoundEvaluates | tree.py:254-272 | an expression without division, whose variables are all bound, evaluates without error |
| Expressions.SumLocality | tree.py:254-274 | an expression's result depends only on the bindings of the variables it reads |
| Expressions.ConditionLocality | tree.py:233-251 | the same for conditions |
| Expressions.SumIgnoresRandom | tree.py:254-274 | an expression without `~` gives the same result for any random source |
| Expressions.ConditionIgnoresRandom | tree.py:233-251 | the same for conditions |
| Interpreter.EvalArgs | tree.py:199-202 | evaluating the arguments gives one value per argument and takes as many samples as the arguments hold `~` nodes |
| Interpreter.ArgValue | tree.py:199-202 | argument i is its expression evaluated in the caller's context, with the random source where the earlier arguments left it |
| Interpreter.ArgsPrefixFails | tree.py:199-202 | an error in an argument aborts the whole argument list with that error |
| Interpreter.BindKeys | tree.py:189-202 | the callee context has exactly the parameter names as keys |
| Interpreter.BindLookup | tree.py:199-202 | each parameter is bound to its own argument (to the last one, if the name repeats) |
| InterpreterLemmas.CalleeScope | tree.py:188-206 | a call that passes the lookup and arity checks runs the body in the fresh context of its parameters alone, after the argument samples |
| InterpreterLemmas.CalleeBinding | tree.py:199-202 | in the callee context, parameter i holds argument i evaluated in the caller's context |
| InterpreterLemmas.OnlyArgumentsPass | tree.py:188-206 | two caller contexts that give the arguments the same values give the same call result |
| InterpreterLemmas.CallErrors | tree.py:192-197 | calling an unknown rule raises; a call with the wrong number of arguments raises |
| InterpreterLemmas.CallRuleValid | tree.py:188-206 | a rule call keeps the graph invariant and only appends to vertices, edges and leaves |
| InterpreterLemmas.RunBodyValid | tree.py:204-206 | the same for a body |
| InterpreterLemmas.RunInstValid | tree.py:209-230 | the same for each kind of instruction |
| InterpreterLemmas.RunValid | tree.py:169-181 | a finished `exec` leaves a tree whose edge endpoints are all vertex indices; the root sits at the origin and has vertex 1's radius |
| InterpreterLemmas.ArgsIgnoreRandom | tree.py:199-202 | arguments without `~` ignore the random source |
| InterpreterLemmas.CallRuleIgnoresRandom | tree.py:188-206 | calls into rules without `~` ignore the random source |
| InterpreterLemmas.RunBodyIgnoresRandom | tree.py:204-206 | bodies without `~` ignore the random source |
| InterpreterLemmas.RunInstIgnoresRandom | tree.py:209-230 | instructions without `~` ignore the random source |
| InterpreterLemmas.RunDeterministic | tree.py:169-181 | two runs of a program without `~` give identical vertices, edges and leaves, whatever the random source |
| InterpreterLemmas.CallRuleFuel | tree.py:188-206 | a call result that did not run out of fuel stays the same with more fuel |
| InterpreterLemmas.RunBodyFuel | tree.py:204-206 | the same for bodies |
| InterpreterLemmas.RunInstFuel | tree.py:209-230 | the same for instructions |
| InterpreterLemmas.RunBodyAppend | tree.py:204-206 | running `a + b` runs `a` and then `b` from where `a` stopped; an error in `a` ends the run |
| InterpreterLemmas.Bracket | tree.py:293-297 | if the body leaves the stack as it found it, `[ body ]` keeps the body's geometry and restores the current vertex, position, orientation and stack |
| Turtle.EdgesInRange | tree.py:283-287 | under the invariant, both endpoints of every edge are vertex indices |
| Turtle.StartValid | tree.py:171-177 | the initial state (one root vertex of radius 1 at the origin, no edges) satisfies the invariant |
| Turtle.AddBranchValid | tree.py:283-287 | a branch adds exactly one vertex and one edge from the old current vertex to it, makes it current, and keeps the invariant |
| Turtle.AddLeafValid | tree.py:289-291 | a leaf leaves vertices, edges and the current vertex unchanged and keeps the invariant |
| Turtle.PushedValid | tree.py:293-294 | a push keeps the invariant |
| Turtle.PoppedValid | tree.py:296-297 | a pop keeps the invariant |
| Turtle.PushPop | tree.py:293-297 | a push followed by a pop gives back exactly the state before the push |
| Turtle.RootFixedValid | tree.py:181 | the root fix-up gives vertex 0 the radius of vertex 1, keeps its position, and changes no other vertex and no other field of the state |
| Scenarios.TwoBranchesRun | tree.py:169-181 | `init(): ^(2,1)^(3,0.5);` runs to three vertices, edges (0,1) and (1,2), no leaves, and a root of radius 1 |
| Scenarios.IsolatedRun | tree.py:188-206 | a variable of the caller that is not passed on is unbound in the callee, and the run raises |
| Scenarios.ConditionalDispatch | tree.py:224-230 | `if 1>0` runs only the then-body; `if 1<0` runs the else-body, or does nothing when there is none |
| Smoothing.OnEdgeBelow | tree.py:93-110 | a vertex on some edge, and its neighbour, are indices of the flag array |
| Smoothing.NeighbourIsAdjacent | tree.py:93-103 | the recorded neighbour of a vertex shares an edge with it |
| Smoothing.EdgeCount | tree.py:93-103 | a vertex is a key exactly when it lies on an edge; its entry is its neighbour when it lies on exactly one edge, and None otherwise |
| Smoothing.MarkLoose | tree.py:89-110 | after the writes, a vertex is loose exactly when it neither lies on exactly one edge nor neighbours such a vertex |
| LSystems.LSystem.Exec | tree.py:169-181 | `exec` resets the turtle and graph, runs the axiom in an empty context and fixes the root's radius; it ends in the state `Run` computes, which satisfies the invariant |
| LSystems.LSystem.EvalRule | tree.py:188-206 | `evalRule` raises or finishes exactly as `CallRule` does, and ends in its state |
| LSystems.LSystem.BindArguments | tree.py:199-202 | the argument loop builds the fresh context that `Bind` and `EvalArgs` describe, or raises the first argument error |
| LSystems.LSystem.EvalBody | tree.py:205-206 | the instruction loop runs a body as `RunBody` does |
| LSystems.LSystem.EvalInstruction | tree.py:209-230 | `evalInstruction` dispatches as `RunInst` does; a conditional's branches run in the caller's context |
| LSystems.LSystem.Turn | tree.py:277-281 | pitch and roll change only the orientation |
| LSystems.LSystem.CreateBranch | tree.py:283-287 | appends one vertex at the advanced position and one edge (old current vertex, new last index), and makes that index current; nothing else changes |
| LSystems.LSystem.CreateLeaf | tree.py:289-291 | appends one leaf at the advanced position and moves the turtle there; vertices, edges and the current vertex stay the same |
| LSystems.LSystem.PushPos | tree.py:293-294 | pushes (current vertex, position, orientation) on top of the stack |
| LSystems.LSystem.PopPos | tree.py:296-297 | on an empty stack it raises and changes nothing; otherwise it restores the top entry and drops it |
| LSystems.LSystem.SmoothTree | tree.py:88-110 | with the loose flag on, the flags are those of `MarkLoose`; with it off, no flag is written |

## Left out

- Parsing (tree.py:16-74, 78): Lark is a foreign library. The parse tree is taken as input, shaped as the grammar fixes it. The conversion of a `NUMBER` token with `float(...)` is not modelled: a literal is held as its value.
- Vector and quaternion maths (tree.py:277-290): this is `mathutils` on floats. The host supplies the turtle's heading (the world Z axis under the inverse orientation) and the rotation used by pitch and roll, including the degrees-to-radians step. Only the vector addition and scaling of the advance step are written out.
- Floating point: numbers are `real`. Rounding, overflow, inf and NaN are not modelled.
- The random source: `random()` is the oracle `Host.random`. The model does not say how the samples are produced. `UnitSamples` states that they lie in [0,1).
- Blender calls: `createMesh` (tree.py:120-166), the modifier and shading operators of `smoothTree` (tree.py:113-117), the skin radii, the metaball leaves, scene deletion and file save/reopen (tree.py:300-303, 493-495), and the `sys.path` set-up (tree.py:11-14). The `use_loose` writes are modelled on a plain boolean array.
- The example grammar strings (tree.py:306-487) are data. Small hand-built programs stand in for them in `Scenarios`.
- Unbounded recursion: rule calls may nest without limit in the source, up to Python's recursion limit. The model bounds the nesting depth with `fuel` and reports `OutOfFuel` beyond it.
- LSystems.LSystem.EvalRule: after a failure it states nothing about the fields, because the source leaves them part-updated and abandons the run. The same holds for `Exec`, `EvalBody` and `EvalInstruction`. `PopPos` does promise that a failure changes nothing.
- Before `exec`, the source object has no turtle or graph attributes. The constructor gives them the values `exec` would set.
