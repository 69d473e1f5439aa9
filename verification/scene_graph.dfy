/**
 * core/Object3D.go: the scene graph. Every node keeps its parent and an
 * ordered list of children, a local transform (position, quaternion, scale)
 * composed into `matrix`, and a world transform `matrixWorld` that
 * UpdateMatrixWorld recomputes top-down as parent world x local, only where
 * a node is dirty or an ancestor was refreshed. Attaching and detaching
 * nodes notifies the node's own "added" and "removed" listeners.
 *
 * The Go code recurses without a termination argument; the recursion here
 * runs over a well-formed tree, described by a ghost Graph: the nodes below
 * each node and its children in order (Graph.Valid, Linked below).
 */
module SceneGraph {
  import opened MatrixElements
  import opened Vectors
  import opened Quaternions
  import opened Matrices
  import opened Slices
  import opened Events
  import opened Wrappers

  /** A node's local transform: position, rotation and scale. */
  datatype Pose = Pose(position: Vec3, quaternion: Quat, scale: Vec3)

  /** The matrix a pose composes to. */
  function Composed(p: Pose): Mat4 {
    Composition(p.position, p.quaternion, p.scale)
  }

  /**
   * The transform state of one node and its subtree: its pose, whether it
   * recomposes on update, its dirty flag, its matrix and world matrix, and
   * its children.
   */
  datatype NodeState = Node(pose: Pose, auto: bool, dirty: bool, local: Mat4, world: Mat4, children: seq<NodeState>)

  /** The world matrix of a refreshed node: its matrix at a root, parent world x matrix below one. */
  function Combined(parentWorld: Option<Mat4>, local: Mat4): Mat4 {
    match parentWorld
    case None => local
    case Some(p) => Product(p, local)
  }

  /**
   * UpdateMatrixWorld(force) on a subtree below parentWorld: a node that
   * recomposes does so and becomes dirty; a dirty or forced node gets
   * Combined(parentWorld, matrix) as world matrix and clears its flag; the
   * children are then updated in order, forced when this node was.
   */
  function Updated(t: NodeState, force: bool, parentWorld: Option<Mat4>): (r: NodeState)
    ensures !r.dirty
    ensures r.pose == t.pose && r.auto == t.auto && |r.children| == |t.children|
    ensures !t.auto ==> r.local == t.local
    ensures t.auto || t.dirty || force ==> r.world == Combined(parentWorld, r.local)
    ensures !(t.auto || t.dirty || force) ==> r.world == t.world
    decreases t, 1
  {
    var local := if t.auto then Composed(t.pose) else t.local;
    var dirty := t.auto || t.dirty;
    var refresh := dirty || force;
    var world := if refresh then Combined(parentWorld, local) else t.world;
    Node(t.pose, t.auto, if refresh then false else dirty, local, world, UpdatedAll(t.children, refresh, Some(world)))
  }

  /**
   * The children updated in turn. Its ensures gives the inductions below each
   * child's update as an element, without unfolding the comprehension.
   */
  function UpdatedAll(ts: seq<NodeState>, force: bool, parentWorld: Option<Mat4>): (r: seq<NodeState>)
    ensures |r| == |ts| && forall i | 0 <= i < |ts| :: r[i] == Updated(ts[i], force, parentWorld)
    decreases ts, 0
  {
    seq(|ts|, i requires 0 <= i < |ts| => Updated(ts[i], force, parentWorld))
  }

  /** No dirty flag is set, and every node that recomposes holds the matrix its pose composes to. */
  ghost predicate Settled(t: NodeState) {
    && !t.dirty
    && (t.auto ==> t.local == Composed(t.pose))
    && forall i | 0 <= i < |t.children| :: Settled(t.children[i])
  }

  /** Every node's world matrix is its parent's world x its matrix (its matrix at a root). */
  ghost predicate Consistent(t: NodeState, parentWorld: Option<Mat4>) {
    && t.world == Combined(parentWorld, t.local)
    && forall i | 0 <= i < |t.children| :: Consistent(t.children[i], Some(t.world))
  }

  /** Every node recomposes on update (the default of NewObject3D). */
  ghost predicate AllAuto(t: NodeState) {
    t.auto && forall i | 0 <= i < |t.children| :: AllAuto(t.children[i])
  }

  /** No node recomposes, is dirty or would be refreshed. */
  ghost predicate Quiet(t: NodeState) {
    !t.auto && !t.dirty && forall i | 0 <= i < |t.children| :: Quiet(t.children[i])
  }

  /** After any update every flag is cleared and every recomposing node holds its composed matrix. */
  lemma {:induction false} UpdatedSettles(t: NodeState, force: bool, parentWorld: Option<Mat4>)
    ensures Settled(Updated(t, force, parentWorld))
    decreases t
  {
    var r := Updated(t, force, parentWorld);
    forall i | 0 <= i < |t.children|
      ensures Settled(r.children[i])
    {
      assert r.children[i] == Updated(t.children[i], t.auto || t.dirty || force, Some(r.world));
      UpdatedSettles(t.children[i], t.auto || t.dirty || force, Some(r.world));
    }
  }

  /**
   * A forced update, or any update of a tree whose nodes all recompose,
   * leaves every world matrix equal to parent world x matrix.
   */
  lemma {:induction false} UpdatedConsistent(t: NodeState, force: bool, parentWorld: Option<Mat4>)
    requires force || AllAuto(t)
    ensures Consistent(Updated(t, force, parentWorld), parentWorld)
    decreases t
  {
    var r := Updated(t, force, parentWorld);
    assert t.auto || t.dirty || force;
    forall i | 0 <= i < |t.children|
      ensures Consistent(r.children[i], Some(r.world))
    {
      assert r.children[i] == Updated(t.children[i], true, Some(r.world));
      UpdatedConsistent(t.children[i], true, Some(r.world));
    }
  }

  /** An update that is not forced leaves a quiet subtree exactly as it was. */
  lemma {:induction false} QuietUnchanged(t: NodeState, parentWorld: Option<Mat4>)
    requires Quiet(t)
    ensures Updated(t, false, parentWorld) == t
    decreases t
  {
    var r := Updated(t, false, parentWorld);
    forall i | 0 <= i < |t.children|
      ensures r.children[i] == t.children[i]
    {
      QuietUnchanged(t.children[i], Some(t.world));
    }
  }

  /** A second forced update changes nothing. */
  lemma {:induction false} ForcedIdempotent(t: NodeState, parentWorld: Option<Mat4>)
    ensures Updated(Updated(t, true, parentWorld), true, parentWorld) == Updated(t, true, parentWorld)
    decreases t
  {
    var r := Updated(t, true, parentWorld);
    var rr := Updated(r, true, parentWorld);
    assert rr.world == r.world;
    forall i | 0 <= i < |t.children|
      ensures rr.children[i] == r.children[i]
    {
      ForcedIdempotent(t.children[i], Some(r.world));
    }
  }

  /**
   * A ghost description of a scene graph: the nodes below each node (its
   * descendants) and its children in order.
   */
  datatype Graph = Graph(below: map<Object3D, set<Object3D>>, kids: map<Object3D, seq<Object3D>>)
  {
    /**
     * A forest: no node lies below itself; a child is a node of the graph
     * below its parent, with fewer nodes below it; two children of a node
     * are different, neither lies below the other and nothing lies below
     * both. The sets shrink from a parent to a child, so there is no cycle.
     */
    ghost predicate Valid() {
      && below.Keys == kids.Keys
      && (forall n | n in below :: n !in below[n])
      && (forall n, j | n in kids && 0 <= j < |kids[n]| :: Inside(kids[n][j], n))
      && (forall n, i, j | n in kids && 0 <= i < j < |kids[n]| :: Apart(kids[n][i], kids[n][j]))
    }

    /** c is a node below a whose descendants are among a's, and fewer. */
    ghost predicate Inside(c: Object3D, a: Object3D) {
      a in below && c in below && c in kids && c in below[a] && below[c] <= below[a] && |below[c]| < |below[a]|
    }

    /** The subtrees of c and d share no node. */
    ghost predicate Apart(c: Object3D, d: Object3D)
      requires c in below && d in below
    {
      c != d && c !in below[d] && d !in below[c] && below[c] !! below[d]
    }
  }

  /** The nodes' children and parents are those the graph describes. */
  ghost predicate Linked(g: Graph)
    reads g.kids.Keys`children, g.kids.Keys`parent
  {
    && (forall n | n in g.kids :: n.children == g.kids[n])
    && (forall n, j | n in g.kids && 0 <= j < |g.kids[n]| && g.kids[n][j] in g.kids :: g.kids[n][j].parent == n)
  }

  /** The state given to a child outside the graph; in a valid graph there is none. */
  const Stray := Node(Pose(Zero, Quaternions.Identity, Vec3(1.0, 1.0, 1.0)), false, false, Identity4(), Identity4(), [])

  /** The transform state of the subtree of a, read off its nodes. */
  ghost function Snapshot(a: Object3D, g: Graph): NodeState
    reads a, g.below[a]
    requires a in g.below && a in g.kids
    decreases |g.below[a]|, 1
  {
    Node(Pose(a.position, a.quaternion, a.scale), a.matrixAutoUpdate, a.matrixWorldNeedsUpdate,
         a.matrix, a.matrixWorld, Snapshots(a, |g.kids[a]|, g))
  }

  /** The states of the subtrees of a's first k children, in order. */
  ghost function Snapshots(a: Object3D, k: nat, g: Graph): (r: seq<NodeState>)
    reads g.below[a]
    requires a in g.below && a in g.kids && k <= |g.kids[a]|
    ensures |r| == k
    decreases |g.below[a]|, 0, k
  {
    if k == 0 then []
    else
      var c := g.kids[a][k - 1];
      Snapshots(a, k - 1, g) + [if g.Inside(c, a) then Snapshot(c, g) else Stray]
  }

  /** Entry j of Snapshots is the state of child j's subtree. */
  lemma {:induction false} SnapshotsAt(a: Object3D, k: nat, g: Graph)
    requires a in g.below && a in g.kids && k <= |g.kids[a]|
    ensures forall j | 0 <= j < k && g.Inside(g.kids[a][j], a) :: Snapshots(a, k, g)[j] == Snapshot(g.kids[a][j], g)
  {
    if k > 0 {
      SnapshotsAt(a, k - 1, g);
    }
  }

  /** Children whose subtrees have the given states make up those states, in order. */
  lemma SnapshotsFrom(a: Object3D, g: Graph, states: seq<NodeState>)
    requires a in g.below && a in g.kids && |states| == |g.kids[a]|
    requires forall j | 0 <= j < |states| :: g.Inside(g.kids[a][j], a) && Snapshot(g.kids[a][j], g) == states[j]
    ensures Snapshots(a, |states|, g) == states
  {
    var r := Snapshots(a, |states|, g);
    SnapshotsAt(a, |states|, g);
    assert forall j | 0 <= j < |states| :: r[j] == states[j];
  }

  /** A node whose own fields and whose children's states are those of Updated(before) has that state. */
  lemma Assembled(a: Object3D, g: Graph, before: NodeState, force: bool, above: Option<Mat4>)
    requires a in g.below && a in g.kids
    requires Pose(a.position, a.quaternion, a.scale) == before.pose && a.matrixAutoUpdate == before.auto
    requires var u := Updated(before, force, above);
      a.matrixWorldNeedsUpdate == u.dirty && a.matrix == u.local && a.matrixWorld == u.world
    requires |g.kids[a]| == |before.children|
    requires Snapshots(a, |before.children|, g) == UpdatedAll(before.children, before.auto || before.dirty || force, Some(a.matrixWorld))
    ensures Snapshot(a, g) == Updated(before, force, above)
  {
  }

  class Object3D {
    /** The embedded EventDispatcher. */
    const dispatcher: EventDispatcher
    var parent: Object3D?
    var children: seq<Object3D>
    var position: Vec3
    var quaternion: Quat
    var scale: Vec3
    var matrix: Mat4
    var matrixWorld: Mat4
    var matrixAutoUpdate: bool
    var matrixWorldNeedsUpdate: bool

    /** NewObject3D: a detached node at the origin, unrotated, unit scale, identity matrices, recomposing on update. */
    constructor ()
      ensures fresh(dispatcher) && dispatcher.listeners == map[]
      ensures parent == null && children == []
      ensures position == Zero && quaternion == Quaternions.Identity && scale == Vec3(1.0, 1.0, 1.0)
      ensures matrix == Identity4() && matrixWorld == Identity4()
      ensures matrixAutoUpdate && !matrixWorldNeedsUpdate
    {
      dispatcher := new EventDispatcher();
      parent := null;
      children := [];
      position := Zero;
      quaternion := Quaternions.Identity;
      scale := Vec3(1.0, 1.0, 1.0);
      matrix := Identity4();
      matrixWorld := Identity4();
      matrixAutoUpdate := true;
      matrixWorldNeedsUpdate := false;
    }

    /** indexOfChild's loop: the first position of node among the children, or -1. */
    method IndexOfChild(node: Object3D) returns (index: int)
      ensures index == IndexOf(children, node)
    {
      for i := 0 to |children|
        invariant node !in children[..i]
      {
        if children[i] == node {
          return i;
        }
      }
      assert children[..|children|] == children;
      return -1;
    }

    /**
     * Remove: a child loses its parent, its "removed" listeners are called,
     * and its entry is deleted from the children, the others keeping their
     * order; for a node that is not a child nothing happens.
     */
    method Remove(node: Object3D) returns (removed: seq<Listener>)
      modifies this`children, node`parent
      ensures node in old(children) ==>
        children == Deleted(old(children), node) && node.parent == null
        && removed == Registered(node.dispatcher.listeners, "removed")
      ensures node !in old(children) ==>
        children == old(children) && node.parent == old(node.parent) && removed == []
    {
      removed := [];
      var index := IndexOfChild(node);
      if index != -1 {
        node.parent := null;
        var _, calls := node.dispatcher.DispatchEvent(NewEvent("removed"));
        removed := calls;
        children := children[..index] + children[index + 1..];
      }
    }

    /**
     * Add: a node cannot become its own child; any other node is first
     * removed from its previous parent, then gets this node as parent, has
     * its "added" listeners called, and is appended as the last child.
     */
    method Add(node: Object3D) returns (removed: seq<Listener>, added: seq<Listener>)
      modifies this`children, node`parent, Parents(node)`children
      ensures node == this ==>
        children == old(children) && parent == old(parent) && removed == [] && added == []
        && (parent != null ==> parent.children == old(parent.children))
      ensures node != this ==> node.parent == this
      ensures node != this ==>
        children == (if old(node.parent) == this then Deleted(old(children), node) else old(children)) + [node]
      ensures node != this && old(node.parent) != null && old(node.parent) != this ==>
        old(node.parent).children == Deleted(old(node.parent.children), node)
      ensures node != this ==> added == Registered(node.dispatcher.listeners, "added")
      ensures node != this ==>
        removed == if old(node.parent) != null && node in old(node.parent.children)
                   then Registered(node.dispatcher.listeners, "removed") else []
    {
      removed, added := [], [];
      if node == this {
        // the source reports the attempt and returns
        return;
      }
      if node.parent != null {
        removed := node.parent.Remove(node);
      }
      node.parent := this;
      var _, calls := node.dispatcher.DispatchEvent(NewEvent("added"));
      added := calls;
      children := children + [node];
    }

    /** UpdateMatrix: the matrix is recomposed from position, quaternion and scale, and the node is marked dirty. */
    method UpdateMatrix()
      modifies this`matrix, this`matrixWorldNeedsUpdate
      ensures matrix == Composition(position, quaternion, scale) && matrixWorldNeedsUpdate
    {
      matrix := Composition(position, quaternion, scale);
      matrixWorldNeedsUpdate := true;
    }

    /** The parent's world matrix, none at a root. */
    function ParentWorld(): Option<Mat4>
      reads this, parent
    {
      if parent == null then None else Some(parent.matrixWorld)
    }

    /**
     * UpdateMatrixWorld(force): the transform state of the subtree of this
     * node becomes Updated of the state it had, below the parent's world
     * matrix. Only the matrices and dirty flags of the subtree change.
     */
    method UpdateMatrixWorld(force: bool, ghost g: Graph)
      requires g.Valid() && Linked(g) && this in g.below
      modifies this`matrix, this`matrixWorld, this`matrixWorldNeedsUpdate
      modifies g.below[this]`matrix, g.below[this]`matrixWorld, g.below[this]`matrixWorldNeedsUpdate
      ensures Snapshot(this, g) == Updated(old(Snapshot(this, g)), force, old(ParentWorld()))
      decreases |g.below[this]|, 2
    {
      ghost var before, above := Snapshot(this, g), ParentWorld();
      var forced := UpdateSelf(force, before, above, g.below[this]);
      UpdateChildren(forced, g, before.children);
      Assembled(this, g, before, force, above);
    }

    /**
     * The first half of UpdateMatrixWorld: this node recomposes its matrix
     * when it updates automatically, and a dirty or forced node takes its
     * world matrix from its parent's and clears its flag; the children are
     * then forced when this node was refreshed.
     */
    method UpdateSelf(force: bool, ghost before: NodeState, ghost above: Option<Mat4>, ghost others: set<Object3D>)
      returns (forced: bool)
      requires before.pose == Pose(position, quaternion, scale)
      requires before.auto == matrixAutoUpdate && before.dirty == matrixWorldNeedsUpdate
      requires before.local == matrix && before.world == matrixWorld && above == ParentWorld()
      requires this !in others
      modifies this`matrix, this`matrixWorld, this`matrixWorldNeedsUpdate
      ensures var u := Updated(before, force, above);
        matrix == u.local && matrixWorld == u.world && matrixWorldNeedsUpdate == u.dirty
      ensures forced == (before.auto || before.dirty || force)
      ensures unchanged(others)
    {
      if matrixAutoUpdate {
        UpdateMatrix();
      }
      forced := force;
      if matrixWorldNeedsUpdate || force {
        if parent == null {
          matrixWorld := matrix;
        } else {
          matrixWorld := Product(parent.matrixWorld, matrix);
        }
        matrixWorldNeedsUpdate := false;
        forced := true;
      }
    }

    /**
     * The second half of UpdateMatrixWorld, the loop over the children: the
     * subtree of each child goes from its state in states to Updated of it
     * below this node's world matrix.
     */
    method UpdateChildren(force: bool, ghost g: Graph, ghost states: seq<NodeState>)
      requires g.Valid() && Linked(g) && this in g.below && |states| == |g.kids[this]|
      requires Snapshots(this, |states|, g) == states
      modifies g.below[this]`matrix, g.below[this]`matrixWorld, g.below[this]`matrixWorldNeedsUpdate
      ensures Snapshots(this, |states|, g) == UpdatedAll(states, force, Some(matrixWorld))
      decreases |g.below[this]|, 1
    {
      ghost var kids := g.kids[this];
      SnapshotsAt(this, |kids|, g);
      for i := 0 to |children|
        invariant forall j | 0 <= j < i :: Snapshot(kids[j], g) == Updated(states[j], force, Some(matrixWorld))
        invariant forall j | i <= j < |kids| :: Snapshot(kids[j], g) == states[j]
      {
        UpdateChild(i, force, g);
      }
      SnapshotsFrom(this, g, UpdatedAll(states, force, Some(matrixWorld)));
    }

    /** One turn of the loop over the children: child i's subtree is updated and its siblings' subtrees keep their states. */
    method UpdateChild(i: nat, force: bool, ghost g: Graph)
      requires g.Valid() && Linked(g) && this in g.below && i < |g.kids[this]|
      modifies g.below[this]`matrix, g.below[this]`matrixWorld, g.below[this]`matrixWorldNeedsUpdate
      ensures var kids := g.kids[this];
        Snapshot(kids[i], g) == Updated(old(Snapshot(kids[i], g)), force, Some(matrixWorld))
      ensures var kids := g.kids[this];
        forall j | 0 <= j < |kids| && j != i :: Snapshot(kids[j], g) == old(Snapshot(kids[j], g))
      decreases |g.below[this]|, 0
    {
      ghost var kids := g.kids[this];
      children[i].UpdateMatrixWorld(force, g);
      forall j | 0 <= j < |kids| && j != i
        ensures Snapshot(kids[j], g) == old(Snapshot(kids[j], g))
      {
        assert if j < i then g.Apart(kids[j], kids[i]) else g.Apart(kids[i], kids[j]);
      }
    }

    /**
     * GetWorldPosition: after a forced UpdateMatrixWorld, the translation
     * part of this node's world matrix, every world matrix of the subtree
     * now being parent world x matrix.
     */
    method GetWorldPosition(ghost g: Graph) returns (r: Vec3)
      requires g.Valid() && Linked(g) && this in g.below && (parent == null || (parent != this && parent !in g.below[this]))
      modifies this`matrix, this`matrixWorld, this`matrixWorldNeedsUpdate
      modifies g.below[this]`matrix, g.below[this]`matrixWorld, g.below[this]`matrixWorldNeedsUpdate
      ensures Snapshot(this, g) == Updated(old(Snapshot(this, g)), true, old(ParentWorld()))
      ensures Consistent(Snapshot(this, g), ParentWorld())
      ensures r == MatrixPosition(matrixWorld)
    {
      UpdateMatrixWorld(true, g);
      UpdatedConsistent(old(Snapshot(this, g)), true, old(ParentWorld()));
      r := MatrixPosition(matrixWorld);
    }
  }

  /** The old parent of a node, as the set Add may change. */
  function Parents(node: Object3D): set<Object3D>
    reads node
  {
    if node.parent == null then {} else {node.parent}
  }
}

