/**
 * Turtle state and the output graph: the fields of `LSystem` that `exec`
 * sets up and that `createBranch`, `createLeaf`, `pushPos` and `popPos`
 * update, with those updates written as functions on a state value.
 *
 * Vector and quaternion maths is not modelled: the host supplies the unit
 * heading of an orientation and the rotation used by pitch and roll.
 */
module Turtle {
  import opened Results
  import opened Expressions

  datatype Vec3 = Vec3(x: real, y: real, z: real)
  datatype Quat = Quat(w: real, x: real, y: real, z: real)

  const Origin := Vec3(0.0, 0.0, 0.0)
  /** `Quaternion()`: the identity rotation. */
  const Identity := Quat(1.0, 0.0, 0.0, 0.0)
  /** The world axes that pitch and roll rotate about, taken into the turtle's frame. */
  const AxisX := Vec3(1.0, 0.0, 0.0)
  const AxisZ := Vec3(0.0, 0.0, 1.0)

  /**
   * What the interpreter takes from outside:
   *  - heading(q): the world Z axis under the inverse of q (the turtle's forward direction);
   *  - turn(q, axis, degrees): q composed with the rotation by `degrees` about axis taken
   *    through the inverse of q;
   *  - random: the samples of the process-wide random source.
   */
  datatype Host = Host(heading: Quat -> Vec3, turn: (Quat, Vec3, real) -> Quat, random: Random)

  function Shift(p: Vec3, d: Vec3): Vec3 { Vec3(p.x + d.x, p.y + d.y, p.z + d.z) }
  function Scale(d: Vec3, k: real): Vec3 { Vec3(d.x * k, d.y * k, d.z * k) }

  /** The point `length` ahead of the turtle along its local Z axis. */
  function Advance(h: Host, pos: Vec3, quat: Quat, length: real): Vec3
  {
    Shift(pos, Scale(h.heading(quat), length))
  }

  /** A `(position, radius)` pair: an entry of `vertices` or of `leaves`. */
  datatype Point = Point(pos: Vec3, radius: real)

  /** An entry of `edges`: two vertex indices. */
  datatype Edge = Edge(from: nat, to: nat)

  /** An entry of `turtleQueue`. */
  datatype Saved = Saved(index: nat, pos: Vec3, quat: Quat)

  /**
   * Everything one execution mutates: the output graph, the turtle, the branch stack,
   * and `draws`, the number of samples taken from the random source so far.
   */
  datatype State = State(
    vertices: seq<Point>,
    edges: seq<Edge>,
    leaves: seq<Point>,
    current: nat,
    pos: Vec3,
    quat: Quat,
    queue: seq<Saved>,
    draws: nat)

  /** The state `exec` sets up: one root vertex of radius 1 at the origin. */
  function Start(draws: nat): State
  {
    State([Point(Origin, 1.0)], [], [], 0, Origin, Identity, [], draws)
  }

  /** `createBranch`: move ahead, add the vertex there and an edge to it from the current vertex. */
  function AddBranch(h: Host, s: State, length: real, radius: real): State
  {
    var p := Advance(h, s.pos, s.quat, length);
    s.(vertices := s.vertices + [Point(p, radius)],
       edges := s.edges + [Edge(s.current, |s.vertices|)],
       current := |s.vertices|,
       pos := p)
  }

  /** `createLeaf`: move ahead and record a leaf there; vertices, edges and the current vertex stay. */
  function AddLeaf(h: Host, s: State, length: real, radius: real): State
  {
    var p := Advance(h, s.pos, s.quat, length);
    s.(leaves := s.leaves + [Point(p, radius)], pos := p)
  }

  /** `pitch` (axis X) and `roll` (axis Z). */
  function Turned(h: Host, s: State, axis: Vec3, degrees: real): State
  {
    s.(quat := h.turn(s.quat, axis, degrees))
  }

  /** `pushPos`. */
  function Pushed(s: State): State
  {
    s.(queue := s.queue + [Saved(s.current, s.pos, s.quat)])
  }

  /** `popPos`: restore the last saved turtle; raises on an empty stack. */
  function Popped(s: State): Result<State>
  {
    if |s.queue| == 0 then Err(EmptyStack)
    else
      var top := s.queue[|s.queue| - 1];
      Ok(s.(current := top.index, pos := top.pos, quat := top.quat, queue := s.queue[..|s.queue| - 1]))
  }

  /** The post-pass of `exec`: the root takes the radius of vertex 1, which must exist. */
  function RootFixed(s: State): Result<State>
  {
    if |s.vertices| < 2 then Err(MissingRootBranch)
    else Ok(s.(vertices := s.vertices[0 := Point(s.vertices[0].pos, s.vertices[1].radius)]))
  }

  /**
   * The graph invariant: a tree rooted at vertex 0 in which edge k leads from an
   * earlier vertex to vertex k + 1, and every vertex index the turtle holds, now or
   * on the branch stack, names a vertex.
   */
  ghost predicate Valid(s: State)
  {
    |s.vertices| >= 1 &&
    |s.edges| == |s.vertices| - 1 &&
    (forall k :: 0 <= k < |s.edges| ==> s.edges[k].to == k + 1 && s.edges[k].from <= k) &&
    s.current < |s.vertices| &&
    (forall j :: 0 <= j < |s.queue| ==> s.queue[j].index < |s.vertices|)
  }

  /** Every edge endpoint is an index of `vertices`. */
  /** Every endpoint of the edges is below n. */
  ghost predicate EndpointsBelow(edges: seq<Edge>, n: nat)
  {
    forall k :: 0 <= k < |edges| ==> edges[k].from < n && edges[k].to < n
  }

  lemma EdgesInRange(s: State)
    requires Valid(s)
    ensures EndpointsBelow(s.edges, |s.vertices|)
  {
  }

  /** `t` extends `s`: the graph only grows, by appending, and the random source only advances. */
  ghost predicate Grows(s: State, t: State)
  {
    s.vertices <= t.vertices && s.edges <= t.edges && s.leaves <= t.leaves && s.draws <= t.draws
  }

  lemma GrowsTransitive(s: State, t: State, u: State)
    requires Grows(s, t) && Grows(t, u)
    ensures Grows(s, u)
  {
  }

  lemma StartValid(draws: nat)
    ensures Valid(Start(draws))
  {
  }

  /** A branch keeps the invariant, adds exactly one vertex and one edge, and makes the new vertex current. */
  lemma AddBranchValid(h: Host, s: State, length: real, radius: real)
    requires Valid(s)
    ensures var t := AddBranch(h, s, length, radius);
            Valid(t) && Grows(s, t) &&
            |t.vertices| == |s.vertices| + 1 && t.edges == s.edges + [Edge(s.current, |t.vertices| - 1)] &&
            t.current == |t.vertices| - 1
  {
  }

  lemma AddLeafValid(h: Host, s: State, length: real, radius: real)
    requires Valid(s)
    ensures var t := AddLeaf(h, s, length, radius);
            Valid(t) && Grows(s, t) && t.vertices == s.vertices && t.edges == s.edges && t.current == s.current
  {
  }

  lemma PushedValid(s: State)
    requires Valid(s)
    ensures Valid(Pushed(s)) && Grows(s, Pushed(s))
  {
  }

  lemma PoppedValid(s: State)
    requires Valid(s) && Popped(s).Ok?
    ensures Valid(Popped(s).value) && Grows(s, Popped(s).value)
  {
  }

  /** Push then pop gives back exactly the state before the push. */
  lemma PushPop(s: State)
    ensures Popped(Pushed(s)) == Ok(s)
  {
  }

  lemma RootFixedValid(s: State)
    requires Valid(s) && RootFixed(s).Ok?
    ensures var t := RootFixed(s).value;
            Valid(t) && t.vertices[0].radius == t.vertices[1].radius &&
            t.vertices[0].pos == s.vertices[0].pos && t.vertices[1..] == s.vertices[1..] &&
            t == s.(vertices := t.vertices)
  {
  }
}
