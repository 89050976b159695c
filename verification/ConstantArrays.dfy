/**
 * Constant values of runkit_constants.c: the depth-first validation of an
 * arbitrary (shared, cyclic) array graph and the deep copy that relies on it.
 */
module ConstantArrays {
  import opened Wrappers

  datatype Key = IntKey(i: int) | StrKey(s: string)

  /** A zval.  `Plain` is everything not reference counted, interned strings included. */
  datatype Zval =
    | Plain(v: int)
    | Str(s: string)
    | Resource(handle: nat, counted: bool)
    | Object(handle: nat)
    | ConstantAst(handle: nat)
    | Arr(addr: nat)
    | Reference(inner: Zval)

  datatype Elem = Elem(key: Key, value: Zval)

  datatype PhpArray = PhpArray(immutable: bool, elems: seq<Elem>)

  /** The arrays in memory, by address. */
  type Graph = map<nat, PhpArray>

  /** ZVAL_DEREF */
  function Deref(z: Zval): (d: Zval)
    ensures if z.Reference? then z == Reference(d) else d == z
  {
    if z.Reference? then z.inner else z
  }

  /** What validate_constant_array rejects outright: reference-counted and of no allowed type. */
  predicate Forbidden(z: Zval) {
    z.ConstantAst? || z.Reference?
  }

  predicate ClosedElem(g: Graph, z: Zval) {
    Deref(z).Arr? ==> Deref(z).addr in g
  }

  /** No dangling array pointers. */
  ghost predicate Closed(g: Graph) {
    forall a, i | a in g && 0 <= i < |g[a].elems| :: ClosedElem(g, g[a].elems[i].value)
  }

  // ----- what validation decides

  /** Element i of the mutable array a leads to the mutable array b. */
  predicate Edge(g: Graph, a: nat, b: nat) {
    && a in g && b in g && !g[a].immutable && !g[b].immutable
    && exists i | 0 <= i < |g[a].elems| :: Deref(g[a].elems[i].value) == Arr(b)
  }

  /** A walk through mutable arrays. */
  predicate IsPath(g: Graph, p: seq<nat>) {
    && (forall i | 0 <= i < |p| :: p[i] in g && !g[p[i]].immutable)
    && forall i | 0 < i < |p| :: Edge(g, p[i - 1], p[i])
  }

  predicate HoldsForbidden(g: Graph, a: nat) {
    a in g && exists i | 0 <= i < |g[a].elems| :: Forbidden(Deref(g[a].elems[i].value))
  }

  /** The walk ends badly: in an array marked from the start, seen before on it, or holding a forbidden element. */
  predicate BadEnd(g: Graph, marks: set<nat>, p: seq<nat>) {
    && |p| > 0
    && var last := p[|p| - 1];
       last in marks || last in p[..|p| - 1] || HoldsForbidden(g, last)
  }

  ghost predicate BadWalk(g: Graph, marks: set<nat>, a: nat) {
    exists p :: |p| > 0 && p[0] == a && IsPath(g, p) && BadEnd(g, marks, p)
  }

  /** The recursion of validate_constant_array with the marks as an argument. */
  ghost predicate Accepts(g: Graph, marks: set<nat>, a: nat)
    requires Closed(g) && a in g
    decreases g.Keys - marks
  {
    g[a].immutable ||
    (a !in marks && forall i | 0 <= i < |g[a].elems| :: AcceptsElem(g, marks, a, i))
  }

  ghost predicate AcceptsElem(g: Graph, marks: set<nat>, a: nat, i: nat)
    requires Closed(g) && a in g && a !in marks && i < |g[a].elems|
    decreases g.Keys - marks, 0
  {
    var z := Deref(g[a].elems[i].value);
    assert ClosedElem(g, g[a].elems[i].value);
    assert g.Keys - (marks + {a}) < g.Keys - marks by { assert a in g.Keys - marks && a !in g.Keys - (marks + {a}); }
    if z.Arr? then Accepts(g, marks + {a}, z.addr) else !Forbidden(z)
  }

  lemma PathTail(g: Graph, p: seq<nat>)
    requires IsPath(g, p) && |p| > 1
    ensures IsPath(g, p[1..]) && Edge(g, p[0], p[1])
  {
    forall i | 0 < i < |p[1..]| ensures Edge(g, p[1..][i - 1], p[1..][i]) {
      assert Edge(g, p[(i + 1) - 1], p[i + 1]);
    }
    assert Edge(g, p[1 - 1], p[1]);
  }

  /** An accepted array has no bad walk. */
  lemma {:induction false} AcceptedWalk(g: Graph, marks: set<nat>, a: nat, p: seq<nat>)
    requires Closed(g) && a in g && Accepts(g, marks, a)
    requires |p| > 0 && p[0] == a && IsPath(g, p)
    ensures !BadEnd(g, marks, p)
    decreases |p|
  {
    if |p| == 1 {
      forall i | 0 <= i < |g[a].elems| ensures !Forbidden(Deref(g[a].elems[i].value)) {
        assert AcceptsElem(g, marks, a, i);
      }
    } else {
      PathTail(g, p);
      var i :| 0 <= i < |g[a].elems| && Deref(g[a].elems[i].value) == Arr(p[1]);
      assert AcceptsElem(g, marks, a, i);
      AcceptedWalk(g, marks + {a}, p[1], p[1..]);
      assert p[|p| - 1] == p[1..][|p[1..]| - 1];
      assert p[..|p| - 1] == [a] + p[1..][..|p[1..]| - 1];
    }
  }

  /** A rejected array has one. */
  lemma {:induction false} RejectedWalk(g: Graph, marks: set<nat>, a: nat)
    requires Closed(g) && a in g && !Accepts(g, marks, a)
    ensures BadWalk(g, marks, a)
    decreases g.Keys - marks
  {
    if a in marks {
      assert IsPath(g, [a]) && BadEnd(g, marks, [a]);
    } else {
      var i :| 0 <= i < |g[a].elems| && !AcceptsElem(g, marks, a, i);
      var z := Deref(g[a].elems[i].value);
      if z.Arr? {
        assert a in g.Keys - marks && a !in g.Keys - (marks + {a});
        RejectedWalk(g, marks + {a}, z.addr);
        var q :| |q| > 0 && q[0] == z.addr && IsPath(g, q) && BadEnd(g, marks + {a}, q);
        ExtendWalk(g, marks, a, q);
      } else {
        assert HoldsForbidden(g, a);
        assert IsPath(g, [a]) && BadEnd(g, marks, [a]);
      }
    }
  }

  lemma ExtendWalk(g: Graph, marks: set<nat>, a: nat, q: seq<nat>)
    requires a in g && !g[a].immutable && |q| > 0 && IsPath(g, q) && Edge(g, a, q[0]) && BadEnd(g, marks + {a}, q)
    ensures BadWalk(g, marks, a)
  {
    var p := [a] + q;
    forall i | 0 < i < |p| ensures Edge(g, p[i - 1], p[i]) {
      if i > 1 { assert Edge(g, q[(i - 1) - 1], q[i - 1]); }
    }
    assert IsPath(g, p);
    var last := q[|q| - 1];
    assert p[|p| - 1] == last && p[..|p| - 1] == [a] + q[..|q| - 1];
    if last in q[..|q| - 1] {
      assert last in p[..|p| - 1];
    }
    assert BadEnd(g, marks, p);
  }

  /** Validation rejects exactly the arrays with a bad walk through mutable arrays. */
  lemma AcceptsIff(g: Graph, marks: set<nat>, a: nat)
    requires Closed(g) && a in g
    ensures Accepts(g, marks, a) <==> !BadWalk(g, marks, a)
  {
    if Accepts(g, marks, a) {
      forall p | |p| > 0 && p[0] == a && IsPath(g, p) ensures !BadEnd(g, marks, p) {
        AcceptedWalk(g, marks, a, p);
      }
    } else {
      RejectedWalk(g, marks, a);
    }
  }

  // ----- what the copy is a copy of

  datatype Kid = Kid(key: Key, tree: Tree)

  /** The contents of a constant: immutable arrays stay shared, everything else is spelled out. */
  datatype Tree = Leaf(z: Zval) | Shared(addr: nat) | Node(kids: seq<Kid>)

  /** A leaf up to the reference-counting flag the copy takes off resources. */
  function Bare(z: Zval): Zval {
    if z.Resource? then z.(counted := false) else z
  }

  /** t is what the zval z holds, references followed. */
  ghost predicate Holds(g: Graph, z: Zval, t: Tree)
    decreases t, 2
  {
    var d := Deref(z);
    if d.Arr? then
      d.addr in g && if g[d.addr].immutable then t == Shared(d.addr) else HoldsArray(g, d.addr, t)
    else !d.Reference? && t == Leaf(Bare(d))
  }

  /** t is what the mutable array at a holds, key by key in order. */
  ghost predicate HoldsArray(g: Graph, a: nat, t: Tree)
    decreases t, 1
  {
    && a in g && !g[a].immutable && t.Node? && |t.kids| == |g[a].elems|
    && forall i {:trigger HoldsKid(g, a, t, i)} | 0 <= i < |t.kids| :: HoldsKid(g, a, t, i)
  }

  ghost predicate HoldsKid(g: Graph, a: nat, t: Tree, i: nat)
    decreases t, 0
  {
    && a in g && t.Node? && i < |t.kids| && i < |g[a].elems|
    && t.kids[i].key == g[a].elems[i].key && Holds(g, g[a].elems[i].value, t.kids[i].tree)
  }

  /** The number of mutable arrays in a tree. */
  function Nodes(t: Tree): nat
    decreases t, 1
  {
    if t.Node? then 1 + NodesUpTo(t, |t.kids|) else 0
  }

  function NodesUpTo(t: Tree, n: nat): nat
    requires t.Node? && n <= |t.kids|
    decreases t, 0, n
  {
    if n == 0 then 0 else NodesUpTo(t, n - 1) + Nodes(t.kids[n - 1].tree)
  }

  lemma {:induction false} NodesWithin(t: Tree, i: nat, n: nat)
    requires t.Node? && i < n <= |t.kids|
    ensures NodesUpTo(t, i) + Nodes(t.kids[i].tree) <= NodesUpTo(t, n)
    decreases n
  {
    if i < n - 1 {
      NodesWithin(t, i, n - 1);
    }
  }

  /**
   * z is a private copy laid out from address lo: no references, no counted resources, and the
   * mutable arrays in it are exactly the addresses lo, lo + 1, .. in depth-first order, so
   * no two places of the copy share an array.
   */
  ghost predicate Private(g: Graph, lo: nat, z: Zval, t: Tree)
    decreases t, 1
  {
    && !z.Reference? && (z.Resource? ==> !z.counted)
    && (z.Arr? ==>
          z.addr in g &&
          (!g[z.addr].immutable ==>
             && z.addr == lo && t.Node? && |t.kids| == |g[lo].elems|
             && forall i {:trigger PrivateKid(g, lo, t, i)} | 0 <= i < |t.kids| :: PrivateKid(g, lo, t, i)))
  }

  ghost predicate PrivateKid(g: Graph, lo: nat, t: Tree, i: nat)
    decreases t, 0
  {
    && lo in g && t.Node? && i < |t.kids| && i < |g[lo].elems|
    && Private(g, lo + 1 + NodesUpTo(t, i), g[lo].elems[i].value, t.kids[i].tree)
  }

  /** dst is what the copy makes of src, which is no array: the same value, but a resource is no longer counted. */
  predicate LeafCopied(src: Zval, dst: Zval) {
    if src.Resource? then dst == Resource(src.handle, false) else dst == src
  }

  /** The arrays hold the same keys in the same order. */
  predicate SameKeys(a: PhpArray, b: PhpArray) {
    |a.elems| == |b.elems| && forall i | 0 <= i < |a.elems| :: a.elems[i].key == b.elems[i].key
  }

  /**
   * Following the elements at the positions of `path`, as far as it leads into mutable arrays, w in memory h is a
   * copy of z in memory g: arrays with the same keys in the same order, the very same immutable array, or an equal
   * leaf; references of the source are followed, and the copy has none.
   */
  ghost predicate CopiedAlong(g: Graph, z: Zval, h: Graph, w: Zval, path: seq<nat>)
    decreases |path|
  {
    var d := Deref(z);
    if d.Arr? && d.addr in g && !g[d.addr].immutable then
      && w.Arr? && w.addr in h && !h[w.addr].immutable && SameKeys(g[d.addr], h[w.addr])
      && (path != [] && path[0] < |g[d.addr].elems| ==>
            CopiedAlong(g, g[d.addr].elems[path[0]].value, h, h[w.addr].elems[path[0]].value, path[1..]))
    else LeafCopied(d, w)
  }

  /** A private copy with the contents of z is a copy of z along every path. */
  lemma {:induction false} CopyFollows(g: Graph, z: Zval, h: Graph, lo: nat, w: Zval, t: Tree, path: seq<nat>)
    requires Holds(g, z, t) && Holds(h, w, t) && Private(h, lo, w, t)
    ensures CopiedAlong(g, z, h, w, path)
    decreases t
  {
    var d := Deref(z);
    if d.Arr? && !g[d.addr].immutable {
      forall i | 0 <= i < |t.kids| ensures g[d.addr].elems[i].key == h[w.addr].elems[i].key {
        assert HoldsKid(g, d.addr, t, i) && HoldsKid(h, w.addr, t, i);
      }
      if path != [] && path[0] < |t.kids| {
        var i := path[0];
        assert HoldsKid(g, d.addr, t, i) && HoldsKid(h, w.addr, t, i) && PrivateKid(h, lo, t, i);
        CopyFollows(g, g[d.addr].elems[i].value, h, lo + 1 + NodesUpTo(t, i), h[w.addr].elems[i].value, t.kids[i].tree,
                    path[1..]);
      }
    }
  }

  /** Contents are unique. */
  lemma {:induction false} HoldsUnique(g: Graph, z: Zval, t: Tree, u: Tree)
    requires Holds(g, z, t) && Holds(g, z, u)
    ensures t == u
    decreases t
  {
    var d := Deref(z);
    if d.Arr? && !g[d.addr].immutable {
      forall i | 0 <= i < |t.kids| ensures t.kids[i] == u.kids[i] {
        assert HoldsKid(g, d.addr, t, i) && HoldsKid(g, d.addr, u, i);
        HoldsUnique(g, g[d.addr].elems[i].value, t.kids[i].tree, u.kids[i].tree);
      }
      assert t.kids == u.kids;
    }
  }

  /** Every accepted mutable array has finite contents, so the copy of it terminates. */
  lemma {:induction false} AcceptedHolds(g: Graph, marks: set<nat>, a: nat) returns (t: Tree)
    requires Closed(g) && a in g && !g[a].immutable && Accepts(g, marks, a)
    ensures HoldsArray(g, a, t)
    decreases g.Keys - marks
  {
    t := AcceptedKids(g, marks, a, |g[a].elems|);
  }

  lemma {:induction false} AcceptedKids(g: Graph, marks: set<nat>, a: nat, n: nat) returns (t: Tree)
    requires Closed(g) && a in g && !g[a].immutable && Accepts(g, marks, a) && n <= |g[a].elems|
    ensures t.Node? && |t.kids| == n && forall i {:trigger HoldsKid(g, a, t, i)} | 0 <= i < n :: HoldsKid(g, a, t, i)
    decreases g.Keys - marks, 0, n
  {
    if n == 0 {
      t := Node([]);
    } else {
      var front := AcceptedKids(g, marks, a, n - 1);
      var z := Deref(g[a].elems[n - 1].value);
      assert AcceptsElem(g, marks, a, n - 1);
      var last: Tree;
      if z.Arr? && !g[z.addr].immutable {
        assert a in g.Keys - marks && a !in g.Keys - (marks + {a});
        last := AcceptedHolds(g, marks + {a}, z.addr);
      } else {
        last := if z.Arr? then Shared(z.addr) else Leaf(Bare(z));
      }
      t := Node(front.kids + [Kid(g[a].elems[n - 1].key, last)]);
      forall i | 0 <= i < n ensures HoldsKid(g, a, t, i) {
        assert i < n - 1 ==> HoldsKid(g, a, front, i);
      }
    }
  }

  /** Adding arrays at new addresses changes no contents. */
  lemma {:induction false} HoldsExtends(g: Graph, h: Graph, z: Zval, t: Tree)
    requires Holds(g, z, t) && Extends(g, h)
    ensures Holds(h, z, t)
    decreases t
  {
    var d := Deref(z);
    if d.Arr? && !g[d.addr].immutable {
      forall i | 0 <= i < |t.kids| ensures HoldsKid(h, d.addr, t, i) {
        assert HoldsKid(g, d.addr, t, i);
        HoldsExtends(g, h, g[d.addr].elems[i].value, t.kids[i].tree);
      }
    }
  }

  /** h keeps the arrays of g at addresses in [lo, hi), and the immutable ones. */
  ghost predicate SameIn(g: Graph, h: Graph, lo: nat, hi: nat) {
    forall a {:trigger SameAt(g, h, a)} | a in g && (lo <= a < hi || g[a].immutable) :: SameAt(g, h, a)
  }

  predicate SameAt(g: Graph, h: Graph, a: nat) {
    a in g && a in h && h[a] == g[a]
  }

  /** A private copy does not notice changes outside its own arrays. */
  lemma {:induction false} PrivateStays(g: Graph, h: Graph, lo: nat, z: Zval, t: Tree)
    requires Private(g, lo, z, t) && Holds(g, z, t) && SameIn(g, h, lo, lo + Nodes(t))
    ensures Private(h, lo, z, t) && Holds(h, z, t)
    decreases t
  {
    if z.Arr? && g[z.addr].immutable {
      assert SameAt(g, h, z.addr);
    } else if z.Arr? {
      assert SameAt(g, h, lo);
      forall i | 0 <= i < |t.kids| ensures PrivateKid(h, lo, t, i) && HoldsKid(h, lo, t, i) {
        assert PrivateKid(g, lo, t, i) && HoldsKid(g, lo, t, i);
        KidWithin(g, h, lo, t, i);
        PrivateStays(g, h, lo + 1 + NodesUpTo(t, i), g[lo].elems[i].value, t.kids[i].tree);
      }
    }
  }

  lemma KidWithin(g: Graph, h: Graph, lo: nat, t: Tree, i: nat)
    requires t.Node? && i < |t.kids| && SameIn(g, h, lo, lo + Nodes(t))
    ensures var at := lo + 1 + NodesUpTo(t, i); SameIn(g, h, at, at + Nodes(t.kids[i].tree))
  {
    NodesWithin(t, i, |t.kids|);
    var at := lo + 1 + NodesUpTo(t, i);
    forall a | a in g && (at <= a < at + Nodes(t.kids[i].tree) || g[a].immutable) ensures SameAt(g, h, a) {
      assert lo <= a < lo + Nodes(t) || g[a].immutable;
    }
  }

  /** The first i elements of dst are private copies of the kids of t, laid out after dst. */
  ghost predicate CopiedUpTo(g: Graph, dst: nat, t: Tree, i: nat) {
    && dst in g && !g[dst].immutable && t.Node? && |g[dst].elems| == i <= |t.kids|
    && forall j {:trigger CopiedKid(g, dst, t, j)} | 0 <= j < i :: CopiedKid(g, dst, t, j)
  }

  ghost predicate CopiedKid(g: Graph, dst: nat, t: Tree, j: nat) {
    HoldsKid(g, dst, t, j) && PrivateKid(g, dst, t, j)
  }

  ghost predicate Extends(g: Graph, h: Graph) {
    forall a | a in g :: a in h && h[a] == g[a]
  }

  /** Making one more copy behind the others, then storing it in dst. */
  lemma CopiedStep(g: Graph, dst: nat, t: Tree, i: nat, g1: Graph, z: Zval, h: Graph)
    requires CopiedUpTo(g, dst, t, i) && i < |t.kids| && Extends(g, g1)
    requires Private(g1, dst + 1 + NodesUpTo(t, i), z, t.kids[i].tree) && Holds(g1, z, t.kids[i].tree)
    requires h == g1[dst := PhpArray(false, g1[dst].elems + [Elem(t.kids[i].key, z)])]
    ensures CopiedUpTo(h, dst, t, i + 1)
  {
    assert g1[dst] == g[dst];
    forall j | 0 <= j < i ensures CopiedKid(h, dst, t, j) {
      assert CopiedKid(g, dst, t, j);
      KidStays(g, dst, t, j, g1, h);
    }
    CopyStays(g1, g1, h, dst, dst + 1 + NodesUpTo(t, i), z, t.kids[i].tree);
    assert h[dst].elems[i] == Elem(t.kids[i].key, z);
    assert CopiedKid(h, dst, t, i);
  }

  lemma KidStays(g: Graph, dst: nat, t: Tree, j: nat, g1: Graph, h: Graph)
    requires t.Node? && j < |t.kids| && CopiedKid(g, dst, t, j) && Extends(g, g1) && dst in g && !g[dst].immutable
    requires forall a {:trigger SameAt(g1, h, a)} | a in g1 && a != dst :: SameAt(g1, h, a)
    requires dst in h && |h[dst].elems| > j && j < |g[dst].elems| && h[dst].elems[j] == g[dst].elems[j]
    requires !h[dst].immutable
    ensures CopiedKid(h, dst, t, j)
  {
    CopyStays(g, g1, h, dst, dst + 1 + NodesUpTo(t, j), g[dst].elems[j].value, t.kids[j].tree);
  }

  lemma CopiedAll(g: Graph, dst: nat, t: Tree)
    requires t.Node? && CopiedUpTo(g, dst, t, |t.kids|)
    ensures HoldsArray(g, dst, t) && Private(g, dst, Arr(dst), t)
  {
    forall j | 0 <= j < |t.kids| ensures HoldsKid(g, dst, t, j) && PrivateKid(g, dst, t, j) {
      assert CopiedKid(g, dst, t, j);
    }
  }

  /** Storing into dst leaves alone a copy laid out behind it. */
  lemma CopyStays(g: Graph, g1: Graph, h: Graph, dst: nat, at: nat, z: Zval, t: Tree)
    requires Private(g, at, z, t) && Holds(g, z, t) && Extends(g, g1) && dst < at && dst in g && !g[dst].immutable
    requires forall a {:trigger SameAt(g1, h, a)} | a in g1 && a != dst :: SameAt(g1, h, a)
    ensures Private(h, at, z, t) && Holds(h, z, t)
  {
    forall a | a in g && (at <= a < at + Nodes(t) || g[a].immutable) ensures SameAt(g, h, a) {
      assert SameAt(g1, h, a);
    }
    PrivateStays(g, h, at, z, t);
  }

  /** The PHP arrays in memory, with the recursion marks Z_PROTECT_RECURSION_P sets on them. */
  class Memory {
    var arrays: Graph
    var next: nat
    var protected: set<nat>

    constructor ()
      ensures Valid() && arrays == map[] && protected == {}
    {
      arrays, next, protected := map[], 0, {};
    }

    ghost predicate Valid()
      reads this
    {
      Closed(arrays) && forall a | a in arrays :: a < next
    }

    /** validate_constant_array */
    method ValidateConstantArray(z: nat) returns (ok: bool)
      requires Valid() && z in arrays
      modifies this`protected
      ensures protected == old(protected)
      ensures ok <==> Accepts(arrays, protected, z)
      decreases arrays.Keys - protected
    {
      var ht := arrays[z];
      if ht.immutable {
        return true;
      }
      if z in protected {
        return false;
      }
      ghost var marks := protected;
      assert z in arrays.Keys - marks && z !in arrays.Keys - (marks + {z});
      protected := protected + {z};
      ok := true;
      var i := 0;
      while i < |ht.elems|
        invariant 0 <= i <= |ht.elems| && protected == marks + {z}
        invariant ok && forall j | 0 <= j < i :: AcceptsElem(arrays, marks, z, j)
      {
        var val := Deref(ht.elems[i].value);
        assert ClosedElem(arrays, arrays[z].elems[i].value);
        if val.Arr? {
          if !arrays[val.addr].immutable {
            var valid := ValidateConstantArray(val.addr);
            if !valid {
              assert !AcceptsElem(arrays, marks, z, i);
              ok := false;
              break;
            }
          }
        } else if Forbidden(val) {
          assert !AcceptsElem(arrays, marks, z, i);
          ok := false;
          break;
        }
        assert AcceptsElem(arrays, marks, z, i);
        i := i + 1;
      }
      protected := protected - {z};
      assert protected == marks;
    }

    /** array_init_size: a new, empty, mutable array. */
    method ArrayInit() returns (dst: nat)
      requires Valid()
      modifies this`arrays, this`next
      ensures Valid() && dst == old(next) && next == dst + 1
      ensures arrays == old(arrays)[dst := PhpArray(false, [])]
    {
      dst := next;
      arrays := arrays[dst := PhpArray(false, [])];
      next := next + 1;
    }

    /** Store val as the last element of dst under key. */
    method HashAddNew(dst: nat, key: Key, val: Zval)
      requires Valid() && dst in arrays && ClosedElem(arrays, val)
      modifies this`arrays
      ensures Valid()
      ensures arrays == old(arrays)[dst :=
                          PhpArray(old(arrays)[dst].immutable, old(arrays)[dst].elems + [Elem(key, val)])]
    {
      arrays := arrays[dst := PhpArray(arrays[dst].immutable, arrays[dst].elems + [Elem(key, val)])];
    }

    /** copy_constant_array; t is what src holds. */
    method CopyConstantArray(src: nat, ghost t: Tree) returns (dst: nat)
      requires Valid() && HoldsArray(arrays, src, t)
      modifies this`arrays, this`next
      ensures Valid() && old(next) <= dst < next
      ensures Extends(old(arrays), arrays)
      ensures HoldsArray(arrays, dst, t) && Private(arrays, old(next), Arr(dst), t)
      ensures next == old(next) + Nodes(t)
      ensures forall path :: CopiedAlong(old(arrays), Arr(src), arrays, Arr(dst), path)
      decreases t, 0
    {
      ghost var g := arrays;
      var from := arrays[src].elems;
      dst := ArrayInit();
      var i := 0;
      while i < |from|
        invariant 0 <= i <= |from| && Valid() && dst == old(next) < next
        invariant Extends(g, arrays) && CopiedUpTo(arrays, dst, t, i)
        invariant next == dst + 1 + NodesUpTo(t, i)
      {
        ghost var kid, g0 := t.kids[i].tree, arrays;
        assert HoldsKid(g, src, t, i);
        HoldsExtends(g, arrays, from[i].value, kid);
        var new_val := CopyElement(Deref(from[i].value), kid);
        ghost var g1 := arrays;
        HashAddNew(dst, from[i].key, new_val);
        CopiedStep(g0, dst, t, i, g1, new_val, arrays);
        i := i + 1;
      }
      CopiedAll(arrays, dst, t);
      forall path ensures CopiedAlong(g, Arr(src), arrays, Arr(dst), path) {
        CopyFollows(g, Arr(src), arrays, dst, Arr(dst), t, path);
      }
    }

    /** The loop body of copy_constant_array: what is stored for a dereferenced source value. */
    method CopyElement(val: Zval, ghost t: Tree) returns (new_val: Zval)
      requires Valid() && !val.Reference? && Holds(arrays, val, t)
      modifies this`arrays, this`next
      ensures Valid() && Extends(old(arrays), arrays) && next == old(next) + Nodes(t)
      ensures Holds(arrays, new_val, t) && Private(arrays, old(next), new_val, t)
      ensures ClosedElem(arrays, new_val)
      ensures !val.Arr? ==> LeafCopied(val, new_val)
      ensures val.Arr? && old(arrays)[val.addr].immutable ==> new_val == val
      decreases t, 1
    {
      new_val := Bare(val);
      if val.Arr? && !arrays[val.addr].immutable {
        var sub := CopyConstantArray(val.addr, t);
        new_val := Arr(sub);
      }
    }

    /** runkit_copy_constant_zval: the return value and what was stored in dst, if anything. */
    method CopyConstantZval(src: Zval) returns (ok: bool, dst: Option<Zval>)
      requires Valid() && ClosedElem(arrays, src) && protected == {}
      modifies this
      ensures Valid() && protected == {} && Extends(old(arrays), arrays)
      ensures ok <==> (src.Arr? ==> Accepts(old(arrays), {}, src.addr))
      ensures dst.Some? <==> ok && !Forbidden(src)
      ensures dst.Some? ==> ClosedElem(arrays, dst.value) && forall t | Holds(old(arrays), src, t) ::
                Holds(arrays, dst.value, t) && Private(arrays, old(next), dst.value, t)
                && next == old(next) + Nodes(t)
      ensures dst.Some? ==> forall path :: CopiedAlong(old(arrays), src, arrays, dst.value, path)
    {
      ok, dst := true, None;
      if src.Arr? {
        if arrays[src.addr].immutable {
          dst := Some(src);
        } else {
          ok := ValidateConstantArray(src.addr);
          if ok {
            ghost var g := arrays;
            ghost var u := AcceptedHolds(arrays, {}, src.addr);
            var copy := CopyConstantArray(src.addr, u);
            dst := Some(Arr(copy));
            forall t | Holds(g, src, t) ensures t == u {
              HoldsUnique(g, src, t, u);
            }
          }
        }
      } else if !Forbidden(src) {
        dst := Some(Bare(src));
      }
    }

    /** php_runkit_check_has_constant_type */
    method CheckHasConstantType(value: Zval) returns (ok: bool)
      requires Valid() && ClosedElem(arrays, value) && protected == {}
      modifies this`protected
      ensures protected == {}
      ensures ok <==> IsConstantValue(arrays, value)
      ensures !value.Arr? ==> (ok <==> value.Plain? || value.Str? || value.Resource? || value.Object?)
    {
      if value.Arr? {
        ok := ValidateConstantArray(value.addr);
      } else {
        ok := !Forbidden(value);
      }
      if value.Arr? {
        AcceptsIff(arrays, {}, value.addr);
      }
    }

    /**
     * The global half of php_runkit_constant_add: the check, then the copy whose
     * result the code ignores.  Names lose one leading backslash.
     */
    method GlobalConstantAdd(constants: map<string, Zval>, constname: string, value: Zval)
      returns (ok: bool, constants': map<string, Zval>)
      requires Valid() && ClosedElem(arrays, value) && protected == {}
      modifies this
      ensures Valid() && protected == {} && Extends(old(arrays), arrays)
      ensures ok <==> IsConstantValue(old(arrays), value) && StripSlash(constname) !in constants
      ensures !ok ==> constants' == constants
      ensures ok ==> StripSlash(constname) in constants'
                     && constants' == constants[StripSlash(constname) := constants'[StripSlash(constname)]]
                     && forall t | Holds(old(arrays), value, t) ::
                          Holds(arrays, constants'[StripSlash(constname)], t)
                          && Private(arrays, old(next), constants'[StripSlash(constname)], t)
      ensures ok ==> StripSlash(constname) in constants'
                     && forall path ::
                          CopiedAlong(old(arrays), value, arrays, constants'[StripSlash(constname)], path)
      ensures !value.Arr? ==>
                (ok <==> StripSlash(constname) !in constants
                         && (value.Plain? || value.Str? || value.Resource? || value.Object?))
    {
      var valid := CheckHasConstantType(value);
      if !valid {
        return false, constants;
      }
      if value.Arr? {
        AcceptsIff(arrays, {}, value.addr);
      }
      var _, copy := CopyConstantZval(value);
      var name := StripSlash(constname);
      if name in constants {
        return false, constants;
      }
      return true, constants[name := copy.value];
    }
  }

  function StripSlash(s: string): (r: string)
    ensures s == (if |s| > 0 && s[0] == '\\' then "\\" else "") + r
  {
    if |s| > 0 && s[0] == '\\' then s[1..] else s
  }

  /** The values constants may take: no cycle and nothing forbidden anywhere inside. */
  ghost predicate IsConstantValue(g: Graph, z: Zval) {
    if z.Arr? then !BadWalk(g, {}, z.addr) else !Forbidden(z)
  }

  /** An array that leads to itself is no constant value. */
  lemma SelfReferenceRejected(g: Graph, a: nat)
    requires Edge(g, a, a)
    ensures !IsConstantValue(g, Arr(a))
  {
    var p := [a, a];
    assert IsPath(g, p) && p[..1] == [a] && BadEnd(g, {}, p);
  }
}
