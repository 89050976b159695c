/**
 * The visiting order of the propagation passes.  Every pass scans the whole class
 * table for the children of one class and recurses into each of them, so it sees
 * exactly the classes below its starting point, each once.
 */
module Sweeps {
  import opened Wrappers
  import H = Hierarchy
  import opened Coherence

  ghost predicate InSubtree(f: H.Forest, rank: map<H.ClassId, nat>, c: H.ClassId, d: H.ClassId)
    requires H.Ranked(f, rank) && c in f
  {
    c == d || H.Under(f, rank, c, d)
  }

  /** c lies in the subtree of a class in `done` whose parent is p. */
  ghost predicate Reached(f: H.Forest, rank: map<H.ClassId, nat>, done: set<H.ClassId>, p: H.ClassId, c: H.ClassId)
    requires H.Ranked(f, rank) && c in f
  {
    exists d | d in done && d in f :: f[d].parent == Some(p) && InSubtree(f, rank, c, d)
  }

  lemma {:induction false} ReachedAll(f: H.Forest, rank: map<H.ClassId, nat>, p: H.ClassId, c: H.ClassId)
    requires H.Ranked(f, rank) && c in f
    ensures Reached(f, rank, f.Keys, p, c) <==> H.Under(f, rank, c, p)
    decreases rank[c]
  {
    if f[c].parent.Some? {
      var q := f[c].parent.value;
      ReachedAll(f, rank, p, q);
      if q == p {
        assert InSubtree(f, rank, c, c);
      } else if H.Under(f, rank, c, p) {
        var d :| d in f && f[d].parent == Some(p) && InSubtree(f, rank, q, d);
        assert InSubtree(f, rank, c, d);
      }
    }
  }

  lemma {:induction false} UnderTransitive(f: H.Forest, rank: map<H.ClassId, nat>, a: H.ClassId, b: H.ClassId,
                                           c: H.ClassId)
    requires H.Ranked(f, rank) && a in f && b in f && H.Under(f, rank, a, b) && H.Under(f, rank, b, c)
    ensures H.Under(f, rank, a, c)
    decreases rank[a]
  {
    if f[a].parent.value != b {
      UnderTransitive(f, rank, f[a].parent.value, b, c);
    }
  }

  /** Two classes above c (or c itself) lie on one line. */
  lemma {:induction false} OneLine(f: H.Forest, rank: map<H.ClassId, nat>, c: H.ClassId, a: H.ClassId, b: H.ClassId)
    requires H.Ranked(f, rank) && c in f && a in f && b in f
    requires InSubtree(f, rank, c, a) && InSubtree(f, rank, c, b)
    ensures InSubtree(f, rank, a, b) || InSubtree(f, rank, b, a)
    decreases rank[c]
  {
    if c != a && c != b {
      OneLine(f, rank, f[c].parent.value, a, b);
    }
  }

  /** Subtrees of two different children of p are disjoint. */
  lemma DisjointSubtrees(f: H.Forest, rank: map<H.ClassId, nat>, p: H.ClassId, c: H.ClassId, a: H.ClassId, b: H.ClassId)
    requires H.Ranked(f, rank) && c in f && a in f && b in f && f[a].parent == Some(p) == f[b].parent
    requires InSubtree(f, rank, c, a) && InSubtree(f, rank, c, b)
    ensures a == b
  {
    OneLine(f, rank, c, a, b);
    if H.Under(f, rank, a, b) {
      if p != b { UnderRank(f, rank, p, b); }
    } else if H.Under(f, rank, b, a) {
      if p != a { UnderRank(f, rank, p, a); }
    }
  }

  /** Classes ranked above p: shrinks on every level of the recursion. */
  ghost function Above(rank: map<H.ClassId, nat>, p: H.ClassId): set<H.ClassId>
    requires p in rank
  {
    set c | c in rank && rank[c] > rank[p]
  }

  lemma AboveShrinks(rank: map<H.ClassId, nat>, p: H.ClassId, c: H.ClassId)
    requires p in rank && c in rank && rank[p] < rank[c]
    ensures Above(rank, c) < Above(rank, p)
  {
    assert c in Above(rank, p) && c !in Above(rank, c);
  }

  lemma NotReachedYet(f: H.Forest, rank: map<H.ClassId, nat>, done: set<H.ClassId>, p: H.ClassId, d: H.ClassId,
                      c: H.ClassId)
    requires H.Ranked(f, rank) && p in f && d in f && d !in done && c in f
    requires f[d].parent == Some(p) && InSubtree(f, rank, c, d)
    ensures !Reached(f, rank, done, p, c) && H.Under(f, rank, c, p)
  {
    if Reached(f, rank, done, p, c) {
      var e :| e in done && e in f && f[e].parent == Some(p) && InSubtree(f, rank, c, e);
      DisjointSubtrees(f, rank, p, c, d, e);
    }
    if c != d {
      UnderTransitive(f, rank, c, d, p);
    }
  }

  lemma ParentNotReached(f: H.Forest, rank: map<H.ClassId, nat>, done: set<H.ClassId>, p: H.ClassId)
    requires H.Ranked(f, rank) && p in f
    ensures !Reached(f, rank, done, p, p)
  {
    if Reached(f, rank, done, p, p) {
      var e :| e in done && e in f && f[e].parent == Some(p) && InSubtree(f, rank, p, e);
      if p != e { UnderRank(f, rank, p, e); }
    }
  }

  // ----- the same in terms of sets of classes

  ghost function Below(f: H.Forest, rank: map<H.ClassId, nat>, p: H.ClassId): set<H.ClassId>
    requires H.Ranked(f, rank)
  {
    set c | c in f && H.Under(f, rank, c, p)
  }

  /** The classes a visit of d settles in a scan for the children of p. */
  ghost function VisitSet(f: H.Forest, rank: map<H.ClassId, nat>, p: H.ClassId, d: H.ClassId): set<H.ClassId>
    requires H.Ranked(f, rank) && d in f
  {
    if f[d].parent == Some(p) then set c | c in f && InSubtree(f, rank, c, d) else {}
  }

  ghost function ReachedSet(f: H.Forest, rank: map<H.ClassId, nat>, done: set<H.ClassId>, p: H.ClassId): set<H.ClassId>
    requires H.Ranked(f, rank)
  {
    set c | c in f && Reached(f, rank, done, p, c)
  }

  /** v with the classes in s taken from goal. */
  function Mix(v: H.Forest, goal: H.Forest, s: set<H.ClassId>): H.Forest {
    map c | c in v :: if c in s && c in goal then goal[c] else v[c]
  }

  predicate AgreeAt(f: H.Forest, v: H.Forest, c: H.ClassId) {
    Find(v, c) == Find(f, c)
  }

  ghost predicate Agree(f: H.Forest, v: H.Forest, s: set<H.ClassId>) {
    forall c {:trigger AgreeAt(f, v, c)} | c in s :: AgreeAt(f, v, c)
  }

  predicate ParentAt(f: H.Forest, v: H.Forest, c: H.ClassId) {
    c in f && c in v && f[c].parent == v[c].parent
  }

  ghost predicate Shaped(f: H.Forest, v: H.Forest) {
    f.Keys == v.Keys && forall c {:trigger ParentAt(f, v, c)} | c in f :: ParentAt(f, v, c)
  }

  lemma MixOne(v: H.Forest, goal: H.Forest, c: H.ClassId)
    requires c in v && c in goal
    ensures Mix(v, goal, {c}) == v[c := goal[c]]
  {
  }

  /** The classes outside s may differ from f, those in s may not. */
  lemma MixAgrees(f: H.Forest, v: H.Forest, goal: H.Forest, s: set<H.ClassId>, t: set<H.ClassId>)
    requires Shaped(f, v) && Shaped(f, goal) && Agree(f, v, t) && s !! t
    ensures Shaped(f, Mix(v, goal, s)) && Agree(f, Mix(v, goal, s), t)
  {
    forall c | c in f ensures ParentAt(f, Mix(v, goal, s), c) {
      assert ParentAt(f, v, c) && ParentAt(f, goal, c);
    }
    forall c | c in t ensures AgreeAt(f, Mix(v, goal, s), c) {
      assert AgreeAt(f, v, c);
    }
  }

  lemma AgreeLess(f: H.Forest, v: H.Forest, s: set<H.ClassId>, t: set<H.ClassId>)
    requires Agree(f, v, t) && s <= t
    ensures Agree(f, v, s)
  {
  }

  lemma MixMix(v: H.Forest, goal: H.Forest, s: set<H.ClassId>, t: set<H.ClassId>)
    ensures Mix(Mix(v, goal, s), goal, t) == Mix(v, goal, s + t)
    ensures Mix(v, goal, {}) == v
  {
  }

  /** Visiting one more class of the table. */
  lemma NextVisit(f: H.Forest, rank: map<H.ClassId, nat>, done: set<H.ClassId>, p: H.ClassId, d: H.ClassId)
    requires H.Ranked(f, rank) && p in f && d in f && d !in done
    ensures ReachedSet(f, rank, done + {d}, p) == ReachedSet(f, rank, done, p) + VisitSet(f, rank, p, d)
    ensures ReachedSet(f, rank, done, p) !! VisitSet(f, rank, p, d)
    ensures VisitSet(f, rank, p, d) <= Below(f, rank, p)
    ensures p !in ReachedSet(f, rank, done, p)
  {
    ParentNotReached(f, rank, done, p);
    forall c | c in VisitSet(f, rank, p, d)
      ensures c !in ReachedSet(f, rank, done, p) && c in Below(f, rank, p)
      ensures c in ReachedSet(f, rank, done + {d}, p)
    {
      NotReachedYet(f, rank, done, p, d, c);
      assert d in done + {d};
    }
    forall c | c in ReachedSet(f, rank, done, p) ensures c in ReachedSet(f, rank, done + {d}, p) {
      var e :| e in done && e in f && f[e].parent == Some(p) && InSubtree(f, rank, c, e);
      assert e in done + {d};
    }
    forall c | c in ReachedSet(f, rank, done + {d}, p) && c !in VisitSet(f, rank, p, d)
      ensures c in ReachedSet(f, rank, done, p)
    {
      var e :| e in done + {d} && e in f && f[e].parent == Some(p) && InSubtree(f, rank, c, e);
      assert e in done;
    }
  }

  lemma ScanEnds(f: H.Forest, rank: map<H.ClassId, nat>, p: H.ClassId)
    requires H.Ranked(f, rank)
    ensures ReachedSet(f, rank, {}, p) == {}
    ensures ReachedSet(f, rank, f.Keys, p) == Below(f, rank, p)
  {
    forall c | c in f ensures c in ReachedSet(f, rank, f.Keys, p) <==> c in Below(f, rank, p) {
      ReachedAll(f, rank, p, c);
    }
  }

  /** A visit settles the class itself and what lies below it. */
  lemma VisitSplits(f: H.Forest, rank: map<H.ClassId, nat>, p: H.ClassId, d: H.ClassId)
    requires H.Ranked(f, rank) && p in f && d in f && f[d].parent == Some(p)
    ensures VisitSet(f, rank, p, d) == {d} + Below(f, rank, d) && d !in Below(f, rank, d)
    ensures Above(rank, d) < Above(rank, p)
  {
    if H.Under(f, rank, d, d) { UnderRank(f, rank, d, d); }
    AboveShrinks(rank, p, d);
  }

  /** A hash table's keys split into what a scan has seen and what it has not. */
  ghost predicate Split<T>(all: set<T>, todo: set<T>, done: set<T>) {
    todo !! done && todo + done == all
  }

  lemma SplitStep<T>(all: set<T>, todo: set<T>, done: set<T>, d: T)
    requires Split(all, todo, done) && d in todo
    ensures d in all && d !in done && Split(all, todo - {d}, done + {d})
  {
  }

  lemma SplitEnds<T>(all: set<T>, todo: set<T>, done: set<T>)
    ensures Split(all, all, {})
    ensures Split(all, todo, done) && todo == {} ==> done == all
  {
  }

  /** One turn of a scan: what the visit may rely on, and what its effect adds up to. */
  lemma ScanStep(f: H.Forest, rank: map<H.ClassId, nat>, goal: H.Forest, v0: H.Forest, done: set<H.ClassId>,
                 p: H.ClassId, d: H.ClassId)
    requires H.Ranked(f, rank) && p in f && d in f && d !in done
    requires Shaped(f, v0) && Shaped(f, goal) && Agree(f, v0, Below(f, rank, p))
    ensures var v := Mix(v0, goal, ReachedSet(f, rank, done, p));
            && Shaped(f, v) && Agree(f, v, VisitSet(f, rank, p, d)) && AgreeAt(v0, v, p)
            && Mix(v, goal, VisitSet(f, rank, p, d)) == Mix(v0, goal, ReachedSet(f, rank, done + {d}, p))
  {
    var reached, next := ReachedSet(f, rank, done, p), VisitSet(f, rank, p, d);
    NextVisit(f, rank, done, p, d);
    AgreeLess(f, v0, next, Below(f, rank, p));
    MixAgrees(f, v0, goal, reached, next);
    MixMix(v0, goal, reached, next);
  }

  /** A visit of a child, the child itself first and then everything below it. */
  lemma VisitFirst(f: H.Forest, rank: map<H.ClassId, nat>, goal: H.Forest, v: H.Forest, p: H.ClassId, d: H.ClassId)
    requires H.Ranked(f, rank) && p in f && d in f && f[d].parent == Some(p)
    requires Shaped(f, v) && Shaped(f, goal) && Agree(f, v, VisitSet(f, rank, p, d))
    ensures Above(rank, d) < Above(rank, p) && AgreeAt(f, v, d)
    ensures var v1 := Mix(v, goal, {d});
            && Shaped(f, v1) && Agree(f, v1, Below(f, rank, d)) && AgreeAt(goal, v1, d)
            && Mix(v1, goal, Below(f, rank, d)) == Mix(v, goal, VisitSet(f, rank, p, d))
  {
    var below := Below(f, rank, d);
    VisitSplits(f, rank, p, d);
    AgreeLess(f, v, below, {d} + below);
    MixAgrees(f, v, goal, {d}, below);
    MixMix(v, goal, {d}, below);
    assert AgreeAt(f, v, d);
  }

  /** A visit of a child, everything below it first and then the child itself. */
  lemma VisitLast(f: H.Forest, rank: map<H.ClassId, nat>, goal: H.Forest, v: H.Forest, p: H.ClassId, d: H.ClassId)
    requires H.Ranked(f, rank) && p in f && d in f && f[d].parent == Some(p)
    requires Shaped(f, v) && Shaped(f, goal) && Agree(f, v, VisitSet(f, rank, p, d))
    ensures Above(rank, d) < Above(rank, p) && AgreeAt(f, v, d) && Agree(f, v, Below(f, rank, d))
    ensures var v1 := Mix(v, goal, Below(f, rank, d));
            AgreeAt(f, v1, d) && Mix(v1, goal, {d}) == Mix(v, goal, VisitSet(f, rank, p, d))
  {
    var below := Below(f, rank, d);
    VisitSplits(f, rank, p, d);
    AgreeLess(f, v, below, {d} + below);
    MixMix(v, goal, below, {d});
    assert below + {d} == {d} + below;
    assert AgreeAt(f, v, d);
  }

  /** A visit of a class that is not a child of p, or below which goal asks for no change. */
  lemma VisitNothing(f: H.Forest, rank: map<H.ClassId, nat>, goal: H.Forest, v: H.Forest, p: H.ClassId, d: H.ClassId)
    requires H.Ranked(f, rank) && p in f && d in f
    requires Agree(f, v, VisitSet(f, rank, p, d)) && Agree(f, goal, VisitSet(f, rank, p, d))
    ensures Mix(v, goal, VisitSet(f, rank, p, d)) == v
  {
    forall c | c in VisitSet(f, rank, p, d) ensures Find(goal, c) == Find(v, c) {
      assert AgreeAt(f, v, c) && AgreeAt(f, goal, c);
    }
  }
}
