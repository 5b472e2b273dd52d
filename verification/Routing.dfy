/** Where a packet goes next, on the two-dimensional mesh and on the ring.  A ring is a single row. */
module Routing {

  import opened Basics

  datatype Topology = Mesh(rows: nat, cols: nat) | Ring(nodes: nat)

  datatype Node = Node(row: nat, col: nat)

  /** A hop leaves by output `out`, and the packet is queued at `to` in the queue of input `into`. */
  datatype Hop = Hop(out: nat, to: Node, into: nat)

  // The queues of a mesh router, and the two directions of a ring router.
  const NORTH: nat := 0
  const SOUTH: nat := 1
  const EAST: nat := 2
  const WEST: nat := 3
  const CW: nat := 0
  const CCW: nat := 1

  function Rows(t: Topology): nat { if t.Mesh? then t.rows else 1 }

  function Cols(t: Topology): nat { if t.Mesh? then t.cols else t.nodes }

  predicate On(t: Topology, n: Node) { n.row < Rows(t) && n.col < Cols(t) }

  function Gap(a: nat, b: nat): nat { if a <= b then b - a else a - b }

  /** Clockwise steps from one ring position to another. */
  function Clockwise(n: nat, from: nat, to: nat): nat
    requires from < n && to < n
  {
    if from <= to then to - from else n - from + to
  }

  /** The length of a shortest way. */
  function Distance(t: Topology, from: Node, to: Node): nat
    requires On(t, from) && On(t, to)
  {
    match t
    case Mesh(_, _) => Gap(from.row, to.row) + Gap(from.col, to.col)
    case Ring(n) => var cw := Clockwise(n, from.col, to.col); if cw <= n - cw then cw else n - cw
  }

  /** Columns first, then rows, on the mesh; the shorter way round, clockwise when equal, on the ring.
      None: the packet is where it belongs. */
  function Route(t: Topology, here: Node, dest: Node): Option<Hop>
    requires On(t, here) && On(t, dest)
  {
    match t
    case Mesh(_, _) =>
      if here.col > dest.col then Some(Hop(WEST, Node(here.row, here.col - 1), EAST))
      else if here.col < dest.col then Some(Hop(EAST, Node(here.row, here.col + 1), WEST))
      else if here.row > dest.row then Some(Hop(NORTH, Node(here.row - 1, here.col), SOUTH))
      else if here.row < dest.row then Some(Hop(SOUTH, Node(here.row + 1, here.col), NORTH))
      else None
    case Ring(n) =>
      if || (dest.col > here.col && dest.col - here.col <= n / 2)
         || (dest.col < here.col && n + dest.col - here.col <= n / 2) then
        Some(Hop(CW, Node(0, if here.col + 1 == n then 0 else here.col + 1), CCW))
      else if dest.col != here.col then
        Some(Hop(CCW, Node(0, if here.col == 0 then n - 1 else here.col - 1), CW))
      else None
  }

  /** Every hop stays on the network and shortens the way by one; only a packet at home stays. */
  lemma HopShortens(t: Topology, here: Node, dest: Node)
    requires On(t, here) && On(t, dest)
    ensures Route(t, here, dest).None? <==> here == dest
    ensures here == dest <==> Distance(t, here, dest) == 0
    ensures
      var h := Route(t, here, dest);
      h.Some? ==> On(t, h.value.to) && Distance(t, h.value.to, dest) == Distance(t, here, dest) - 1
  {
  }

  /** The sides of a router on which it has a neighbour; its other queues and outputs are local. */
  function Sides(t: Topology): nat { if t.Mesh? then 4 else 2 }

  function Opposite(t: Topology, side: nat): nat {
    match t
    case Mesh(_, _) =>
      if side == NORTH then SOUTH else if side == SOUTH then NORTH else if side == EAST then WEST else EAST
    case Ring(_) => if side == CW then CCW else CW
  }

  /** Node b is next to node a, on that side of it. */
  predicate Beside(t: Topology, a: Node, side: nat, b: Node)
    requires On(t, a) && On(t, b)
  {
    match t
    case Mesh(_, _) =>
      if side == NORTH then a.col == b.col && a.row == b.row + 1
      else if side == SOUTH then a.col == b.col && b.row == a.row + 1
      else if side == EAST then a.row == b.row && b.col == a.col + 1
      else side == WEST && a.row == b.row && a.col == b.col + 1
    case Ring(n) =>
      if side == CW then b.col == (if a.col + 1 == n then 0 else a.col + 1)
      else side == CCW && a.col == (if b.col + 1 == n then 0 else b.col + 1)
  }

  /** An output on a side leads to the neighbour on that side, and into its queue for the side it came from. */
  lemma HopIsSided(t: Topology, here: Node, dest: Node)
    requires On(t, here) && On(t, dest) && Route(t, here, dest).Some?
    ensures
      var h := Route(t, here, dest).value;
      && On(t, h.to) && h.out < Sides(t) && h.into == Opposite(t, h.out)
      && Beside(t, here, h.out, h.to) && Beside(t, h.to, h.into, here)
  {
  }

  /** A packet never goes back: on the ring it keeps its direction, and on the mesh it keeps its direction
      along each axis and never changes its column again once it has moved along one. */
  lemma NeverReverses(t: Topology, here: Node, dest: Node)
    requires On(t, here) && On(t, dest) && Route(t, here, dest).Some?
    ensures
      var h := Route(t, here, dest).value;
      On(t, h.to) &&
      var g := Route(t, h.to, dest);
      g.Some? ==>
        && g.value.out != h.into && (t.Ring? ==> g.value.out == h.out)
        && (h.out in {NORTH, SOUTH} && t.Mesh? ==> g.value.out == h.out)
  {
  }

  predicate Linked(t: Topology, a: Node, b: Node)
    requires On(t, a) && On(t, b)
  {
    match t
    case Mesh(_, _) => Gap(a.row, b.row) + Gap(a.col, b.col) == 1
    case Ring(n) => Clockwise(n, a.col, b.col) == 1 || Clockwise(n, b.col, a.col) == 1
  }

  ghost predicate Walk(t: Topology, w: seq<Node>) {
    |w| > 0 && (forall k :: 0 <= k < |w| ==> On(t, w[k])) && forall k :: 0 < k < |w| ==> Linked(t, w[k-1], w[k])
  }

  lemma LinkGainsOne(t: Topology, a: Node, b: Node, dest: Node)
    requires On(t, a) && On(t, b) && On(t, dest) && Linked(t, a, b)
    ensures Distance(t, a, dest) <= Distance(t, b, dest) + 1
  {
  }

  /** No walk over the links is shorter than `Distance`. */
  lemma {:induction false} NoShorterWalk(t: Topology, w: seq<Node>)
    requires Walk(t, w)
    ensures Distance(t, w[0], w[|w|-1]) <= |w| - 1
  {
    if |w| > 1 {
      NoShorterWalk(t, w[1..]);
      LinkGainsOne(t, w[0], w[1], w[|w|-1]);
    }
  }

  /** The nodes a packet visits. */
  function Way(t: Topology, here: Node, dest: Node): seq<Node>
    requires On(t, here) && On(t, dest)
    decreases Distance(t, here, dest)
  {
    HopShortens(t, here, dest);
    match Route(t, here, dest)
    case None => [here]
    case Some(h) => [here] + Way(t, h.to, dest)
  }

  lemma WalkFrom(t: Topology, a: Node, w: seq<Node>)
    requires Walk(t, w) && On(t, a) && Linked(t, a, w[0])
    ensures Walk(t, [a] + w)
  {
    var v := [a] + w;
    assert forall k :: 0 <= k < |v| ==> On(t, v[k]);
    forall k | 0 < k < |v| ensures Linked(t, v[k-1], v[k]) {
      if k > 1 { assert Linked(t, w[(k-1)-1], w[k-1]); }
    }
  }

  lemma HopIsLink(t: Topology, here: Node, dest: Node)
    requires On(t, here) && On(t, dest) && Route(t, here, dest).Some?
    ensures On(t, Route(t, here, dest).value.to) && Linked(t, here, Route(t, here, dest).value.to)
  {
  }

  /** The way taken is a walk to the destination ... */
  lemma {:induction false} WayArrives(t: Topology, here: Node, dest: Node)
    requires On(t, here) && On(t, dest)
    ensures
      var w := Way(t, here, dest);
      Walk(t, w) && w[0] == here && w[|w|-1] == dest && |w| - 1 == Distance(t, here, dest)
    decreases Distance(t, here, dest)
  {
    HopShortens(t, here, dest);
    if here != dest {
      HopIsLink(t, here, dest);
      var h := Route(t, here, dest).value;
      WayArrives(t, h.to, dest);
      WalkFrom(t, here, Way(t, h.to, dest));
    }
  }

  /** ... and no walk is shorter. */
  lemma WayIsShortest(t: Topology, v: seq<Node>)
    requires Walk(t, v)
    ensures |Way(t, v[0], v[|v|-1])| <= |v|
  {
    WayArrives(t, v[0], v[|v|-1]);
    NoShorterWalk(t, v);
  }
}
