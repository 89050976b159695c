/**
 * Adopting a parent and emancipating from it, as loops over names.  While a loop
 * runs, the names already handled are flat for the new parent relation and the
 * others still for the old one.
 */
module Adoption {
  import opened Wrappers
  import opened Hierarchy
  import opened Coherence
  import opened MethodOps
  import opened MethodRuns
  import opened MethodGuards

  /** f with c cut off from its parent. */
  function Detached(f: Forest, c: ClassId): Forest
    requires c in f
  {
    f[c := f[c].(parent := None)]
  }

  lemma DetachedRanked(f: Forest, rank: map<ClassId, nat>, c: ClassId)
    requires Ranked(f, rank) && c in f
    ensures Ranked(Detached(f, c), rank)
  {
  }

  /** Cutting c off matters for c's own agreement with its parent only. */
  lemma DetachedFlatAt(f: Forest, c: ClassId, x: ClassId, n: Name)
    requires c in f && x in f && x != c
    ensures FlatAt(Detached(f, c), x, n) == FlatAt(f, x, n)
  {
  }

  lemma DetachedElsewhere(f: Forest, c: ClassId, n: Name)
    requires c in f
    ensures FlatElsewhere(Detached(f, c), c, n) == FlatElsewhere(f, c, n)
    ensures FlatFor(Detached(f, c), n) ==> FlatElsewhere(f, c, n)
    ensures FlatElsewhere(f, c, n) && FlatAt(Detached(f, c), c, n) ==> FlatFor(Detached(f, c), n)
  {
    forall x | x in f && x != c ensures FlatAt(Detached(f, c), x, n) == FlatAt(f, x, n) {
      DetachedFlatAt(f, c, x, n);
    }
  }

  /** Names in `done` agree with the attached relation, the others with the detached one (or the reverse). */
  ghost predicate Halfway(f: Forest, c: ClassId, done: set<Name>, attached: bool)
    requires c in f
  {
    && (forall n | n in done :: FlatFor(if attached then f else Detached(f, c), n))
    && (forall n | n !in done :: FlatFor(if attached then Detached(f, c) else f, n))
  }

  // ----- which parent links close no cycle

  /** The conditions under which adopt goes on. */
  predicate CanAdopt(f: Forest, c: ClassId, p: ClassId) {
    Modifiable(f, c) && f[c].parent.None? && Modifiable(f, p)
  }

  function WithParent(f: Forest, c: ClassId, p: ClassId): Forest
    requires c in f
  {
    f[c := f[c].(parent := Some(p))]
  }

  function Reparent(d: Declared, c: ClassId, p: Option<ClassId>): Declared
    requires c in d
  {
    d[c := d[c].(parent := p)]
  }

  lemma RankedDeclared(f: Forest, rank: map<ClassId, nat>)
    ensures Ranked(f, rank) <==> DRanked(DeclOf(f), rank)
  {
    assert DeclOf(f).Keys == f.Keys;
    if DRanked(DeclOf(f), rank) {
      forall c | c in f && f[c].parent.Some? ensures f[c].parent.value in f && rank[f[c].parent.value] < rank[c] {
        assert DeclOf(f)[c].parent == f[c].parent;
      }
    }
  }

  /** x descends from c. */
  ghost predicate Descends(d: Declared, rank: map<ClassId, nat>, x: ClassId, c: ClassId)
    requires DRanked(d, rank) && x in d
    decreases rank[x]
  {
    d[x].parent.Some? && (d[x].parent.value == c || Descends(d, rank, d[x].parent.value, c))
  }

  /** The ranks after c has got the parent p: c and what is below it move up past p. */
  ghost function AdoptRank(d: Declared, rank: map<ClassId, nat>, c: ClassId, p: ClassId): map<ClassId, nat>
    requires DRanked(d, rank) && p in d
  {
    map x | x in d :: if x == c || Descends(d, rank, x, c) then rank[x] + rank[p] + 1 else rank[x]
  }

  lemma AdoptRanked(d: Declared, rank: map<ClassId, nat>, c: ClassId, p: ClassId)
    requires DRanked(d, rank) && c in d && p in d && d[c].parent.None? && p != c && !Descends(d, rank, p, c)
    ensures DRanked(Reparent(d, c, Some(p)), AdoptRank(d, rank, c, p))
  {
  }

  lemma {:induction false} DescendsRank(d: Declared, rank: map<ClassId, nat>, c: ClassId, p: ClassId,
                                         r: map<ClassId, nat>, x: ClassId)
    requires DRanked(d, rank) && c in d && DRanked(Reparent(d, c, Some(p)), r)
    requires x in d && d[c].parent.None? && Descends(d, rank, x, c)
    ensures r[c] < r[x]
    decreases rank[x]
  {
    var q := d[x].parent.value;
    assert Reparent(d, c, Some(p))[x].parent == Some(q);
    if q != c { DescendsRank(d, rank, c, p, r, q); }
  }

  /** The link from c to p would close a cycle. */
  ghost predicate Closes(d: Declared, rank: map<ClassId, nat>, c: ClassId, p: ClassId)
    requires DRanked(d, rank) && p in d
  {
    p == c || Descends(d, rank, p, c)
  }

  /** Nothing is left to inherit from p. */
  predicate HasAll(f: Forest, c: ClassId, p: ClassId)
    requires c in f && p in f
  {
    f[p].methods.Keys <= f[c].methods.Keys
  }

  /** A chain of classes, each the parent of the next. */
  predicate Chain(d: Declared, names: seq<ClassId>) {
    forall i | 0 < i < |names| :: names[i] in d && d[names[i]].parent == Some(names[i - 1])
  }

  lemma {:induction false} ChainDown(d: Declared, rank: map<ClassId, nat>, x: ClassId, c: ClassId)
    returns (names: seq<ClassId>)
    requires DRanked(d, rank) && c in d && x in d && (x == c || Descends(d, rank, x, c))
    ensures Chain(d, names) && names != [] && names[0] == c && names[|names| - 1] == x
    ensures forall i | 0 < i < |names| :: names[i] in d && rank[c] < rank[names[i]]
    decreases rank[x]
  {
    if x == c {
      names := [c];
    } else {
      var q := d[x].parent.value;
      var up := ChainDown(d, rank, q, c);
      names := up + [x];
      assert rank[c] < rank[x] by { if |up| > 1 { assert rank[c] < rank[up[|up| - 1]]; } }
    }
  }

  /**
   * On a closed cycle there are chains of any length below c.  The update pass calls itself for every subclass
   * of a class it reaches, so once it starts at c it never ends.
   */
  lemma {:induction false} CycleChains(d: Declared, rank: map<ClassId, nat>, c: ClassId, p: ClassId, length: nat)
    returns (names: seq<ClassId>)
    requires DRanked(d, rank) && c in d && p in d && d[c].parent.None? && Closes(d, rank, c, p)
    ensures Chain(Reparent(d, c, Some(p)), names) && |names| > length && names[0] == c
    decreases length
  {
    var round := ChainDown(d, rank, p, c);
    var g := Reparent(d, c, Some(p));
    assert Chain(g, round) by {
      forall i | 0 < i < |round| ensures round[i] in g && g[round[i]].parent == Some(round[i - 1]) {
        assert rank[c] < rank[round[i]];
      }
    }
    if length == 0 {
      names := round;
    } else {
      var rest := CycleChains(d, rank, c, p, length - 1);
      names := round + rest;
    }
  }

  /** A parent link keeps the hierarchy acyclic exactly when the parent is neither the class nor below it. */
  lemma AcyclicIff(d: Declared, rank: map<ClassId, nat>, c: ClassId, p: ClassId)
    requires DRanked(d, rank) && c in d && p in d && d[c].parent.None?
    ensures (exists r :: DRanked(Reparent(d, c, Some(p)), r)) <==> !Closes(d, rank, c, p)
  {
    if !Closes(d, rank, c, p) {
      AdoptRanked(d, rank, c, p);
    } else if r :| DRanked(Reparent(d, c, Some(p)), r) {
      assert Reparent(d, c, Some(p))[c].parent == Some(p);
      assert r[p] < r[c];
      assert p != c;
      DescendsRank(d, rank, c, p, r, p);
    }
  }

  // ----- adoption, one name

  lemma {:induction false} DetachedLine(f: Forest, rank: map<ClassId, nat>, c: ClassId, x: ClassId, a: ClassId)
    requires c in f && Ranked(f, rank) && Ranked(Detached(f, c), rank) && x in f && a in f
    requires x == c || Under(f, rank, x, c)
    requires Under(Detached(f, c), rank, x, a)
    ensures rank[a] >= rank[c]
    decreases rank[x]
  {
    if x != c {
      var q := f[x].parent.value;
      if q != c { UnderRank(f, rank, q, c); }
      if q != a {
        DetachedLine(f, rank, c, q, a);
      }
    }
  }

  /** The parent's entry is one the update pass can hand down: nothing below c has its scope. */
  lemma AdoptedFits(f: Forest, rank: map<ClassId, nat>, c: ClassId, n: Name)
    requires Ranked(f, rank) && c in f && f[c].parent.Some? && FlatFor(Detached(f, c), n)
    requires n in f[f[c].parent.value].methods && n !in f[c].methods
    ensures var fe := f[f[c].parent.value].methods[n];
            && fe.scope in f && rank[fe.scope] < rank[c]
            && Fits(f, rank, c, Change(fe.scope, n, fe, None))
  {
    var p := f[c].parent.value;
    var fe := f[p].methods[n];
    DetachedRanked(f, rank, c);
    ScopeAbove(Detached(f, c), rank, p, n);
    if Under(f, rank, fe.scope, c) {
      UnderRank(f, rank, fe.scope, c);
    }
    forall x | x in f && Under(f, rank, x, c) && n in f[x].methods && f[x].methods[n].scope == fe.scope ensures false {
      UnderRank(f, rank, x, c);
      assert Detached(f, c)[x] == f[x];
      ScopeAbove(Detached(f, c), rank, x, n);
      DetachedLine(f, rank, c, x, fe.scope);
    }
  }

  /** php_runkit_inherit_methods for the parent's entry n. */
  ghost function AdoptName(f: Forest, rank: map<ClassId, nat>, c: ClassId, n: Name): Forest
    requires Ranked(f, rank) && c in f && f[c].parent.Some? && n in f[f[c].parent.value].methods
  {
    if n in f[c].methods then f
    else var fe := f[f[c].parent.value].methods[n]; Install(f, rank, c, Change(fe.scope, n, fe, None))
  }

  /** What one name of a loop keeps: parents, other tables' declarations, the parent's own table. */
  ghost predicate Kept(f: Forest, h: Forest, p: ClassId) {
    SameParents(f, h) && p in f && h[p].methods == f[p].methods && DeclOf(h) == DeclOf(f)
  }

  lemma InstallOthers(f: Forest, rank: map<ClassId, nat>, c: ClassId, ch: Change, m: Name)
    requires Ranked(f, rank) && c in f && m != ch.name
    ensures SameFor(f, Install(f, rank, c, ch), m)
  {
    forall x | x in f ensures Find(f[x].methods, m) == Find(Install(f, rank, c, ch)[x].methods, m) {
      InstallTables(f, rank, c, ch, x);
    }
    InstallTables(f, rank, c, ch, c);
  }

  lemma SameForDetached(f: Forest, h: Forest, c: ClassId, m: Name)
    requires SameFor(f, h, m) && c in f
    ensures SameFor(Detached(f, c), Detached(h, c), m)
  {
    var fd, hd := Detached(f, c), Detached(h, c);
    assert fd.Keys == f.Keys && hd.Keys == h.Keys;
    forall x | x in fd
      ensures fd[x].parent == hd[x].parent && fd[x].kind == hd[x].kind
           && Find(fd[x].methods, m) == Find(hd[x].methods, m)
    {
      assert Find(f[x].methods, m) == Find(h[x].methods, m);
    }
  }

  /** A name no table changed for stays as flat as it was, attached or detached. */
  lemma UntouchedName(f: Forest, h: Forest, c: ClassId, m: Name)
    requires SameFor(f, h, m) && c in f
    ensures FlatFor(f, m) == FlatFor(h, m) && FlatFor(Detached(f, c), m) == FlatFor(Detached(h, c), m)
  {
    SameForFlat(f, h, m);
    SameForDetached(f, h, c, m);
    SameForFlat(Detached(f, c), Detached(h, c), m);
  }

  lemma AdoptNameFlat(f: Forest, rank: map<ClassId, nat>, c: ClassId, n: Name)
    requires Ranked(f, rank) && c in f && f[c].parent.Some? && n in f[f[c].parent.value].methods
    requires FlatFor(Detached(f, c), n)
    ensures FlatFor(AdoptName(f, rank, c, n), n)
  {
    var p := f[c].parent.value;
    var h := AdoptName(f, rank, c, n);
    DetachedElsewhere(f, c, n);
    assert FlatAt(Detached(f, c), c, n);
    if n !in f[c].methods {
      var fe := f[p].methods[n];
      var ch := Change(fe.scope, n, fe, None);
      AdoptedFits(f, rank, c, n);
      InstallKeepsFlat(f, rank, c, ch, n);
      InstallTables(f, rank, c, ch, c);
      InstallTables(f, rank, c, ch, p);
      if Under(f, rank, p, c) { UnderRank(f, rank, p, c); }
      FlatFromElsewhere(h, c, n);
    }
  }

  lemma AdoptNameDeclares(f: Forest, rank: map<ClassId, nat>, c: ClassId, n: Name)
    requires Ranked(f, rank) && c in f && f[c].parent.Some? && n in f[f[c].parent.value].methods
    requires FlatFor(Detached(f, c), n)
    ensures Kept(f, AdoptName(f, rank, c, n), f[c].parent.value)
  {
    var p := f[c].parent.value;
    if n !in f[c].methods {
      var fe := f[p].methods[n];
      var ch := Change(fe.scope, n, fe, None);
      var h := Install(f, rank, c, ch);
      AdoptedFits(f, rank, c, n);
      InstallTables(f, rank, c, ch, p);
      if Under(f, rank, p, c) { UnderRank(f, rank, p, c); }
      forall x | x in f ensures OwnTable(h[x], x) == OwnTable(f[x], x) {
        AdoptNameOwn(f, rank, c, n, x);
      }
      OneDeclarationChanged(f, h, c, OwnTable(f[c], c));
    }
  }

  lemma AdoptNameOwn(f: Forest, rank: map<ClassId, nat>, c: ClassId, n: Name, x: ClassId)
    requires Ranked(f, rank) && c in f && f[c].parent.Some? && n in f[f[c].parent.value].methods && n !in f[c].methods
    requires FlatFor(Detached(f, c), n) && x in f
    ensures x in AdoptName(f, rank, c, n) && OwnTable(AdoptName(f, rank, c, n)[x], x) == OwnTable(f[x], x)
  {
    var fe := f[f[c].parent.value].methods[n];
    var ch := Change(fe.scope, n, fe, None);
    AdoptedFits(f, rank, c, n);
    InstallTables(f, rank, c, ch, x);
    if x != c && Under(f, rank, x, c) {
      UnderRank(f, rank, x, c);
    }
  }

  /** One turn of the adoption loop. */
  lemma AdoptNameStep(f: Forest, rank: map<ClassId, nat>, c: ClassId, done: set<Name>, n: Name)
    requires Ranked(f, rank) && c in f && f[c].parent.Some? && n in f[f[c].parent.value].methods && n !in done
    requires Indexed(f) && Halfway(f, c, done, true)
    ensures var h := AdoptName(f, rank, c, n);
            && Kept(f, h, f[c].parent.value) && Ranked(h, rank) && Indexed(h) && Halfway(h, c, done + {n}, true)
  {
    var h := AdoptName(f, rank, c, n);
    assert FlatFor(Detached(f, c), n);
    AdoptNameDeclares(f, rank, c, n);
    AdoptNameFlat(f, rank, c, n);
    DetachedElsewhere(f, c, n);
    if n !in f[c].methods {
      var fe := f[f[c].parent.value].methods[n];
      var ch := Change(fe.scope, n, fe, None);
      AdoptedFits(f, rank, c, n);
      InstallKeepsIndexed(f, rank, c, ch);
      forall m | m != n ensures SameFor(f, h, m) {
        InstallOthers(f, rank, c, ch, m);
      }
    }
    HalfwayStep(f, h, c, done, n, true);
  }

  lemma HalfwayStep(f: Forest, h: Forest, c: ClassId, done: set<Name>, n: Name, attached: bool)
    requires c in f && SameParents(f, h) && Halfway(f, c, done, attached)
    requires forall m | m != n :: SameFor(f, h, m)
    requires FlatFor(if attached then h else Detached(h, c), n)
    ensures Halfway(h, c, done + {n}, attached)
  {
    forall m | m != n
      ensures FlatFor(f, m) == FlatFor(h, m) && FlatFor(Detached(f, c), m) == FlatFor(Detached(h, c), m)
    {
      assert SameFor(f, h, m);
      UntouchedName(f, h, c, m);
    }
  }

  /** The parent link is no part of the names, slots or own declarations. */
  lemma ReparentIndexed(f: Forest, c: ClassId, p: Option<ClassId>)
    requires Indexed(f) && c in f
    ensures var g := f[c := f[c].(parent := p)];
            Indexed(g) && DeclOf(g) == Reparent(DeclOf(f), c, p)
  {
    var g := f[c := f[c].(parent := p)];
    forall x, k | x in g ensures SlotAt(g[x], k) && GuardedSlot(g[x], k) {
      assert SlotAt(f[x], k) && GuardedSlot(f[x], k);
    }
    assert OwnTable(g[c], c) == OwnTable(f[c], c);
  }

  /** Before the loop only the parent link is new; after it every name is settled. */
  lemma AdoptStarts(f: Forest, rank: map<ClassId, nat>, c: ClassId, p: ClassId)
    requires Inv(f) && c in f && f[c].parent.None? && p in f
    ensures var g := WithParent(f, c, p);
            Indexed(g) && Halfway(g, c, {}, true) && DeclOf(g) == Reparent(DeclOf(f), c, Some(p))
  {
    ReparentIndexed(f, c, Some(p));
    assert Detached(WithParent(f, c, p), c) == f;
  }

  lemma AdoptEnds(f: Forest, rank: map<ClassId, nat>, c: ClassId, done: set<Name>)
    requires Ranked(f, rank) && c in f && f[c].parent.Some? && Indexed(f) && Halfway(f, c, done, true)
    requires f[f[c].parent.value].methods.Keys <= done
    ensures Inv(f)
  {
    forall n ensures FlatFor(f, n) {
      if n !in done {
        DetachedElsewhere(f, c, n);
        assert FlatAt(Detached(f, c), c, n);
        assert FlatAt(f, c, n);
        FlatFromElsewhere(f, c, n);
      }
    }
  }

  /** The state of the adoption loop between two names of the parent's table. */
  ghost predicate AdoptLoop(f: Forest, rank: map<ClassId, nat>, c: ClassId, p: ClassId, d: Declared, table: Table,
                            done: set<Name>)
  {
    && c in f && p in f && f[c].parent == Some(p) && Ranked(f, rank) && f[p].methods == table
    && DeclOf(f) == d && Indexed(f) && Halfway(f, c, done, true)
  }

  lemma AdoptLoopStarts(f: Forest, rank: map<ClassId, nat>, c: ClassId, p: ClassId)
    requires Inv(f) && c in f && f[c].parent.None? && p in f
    requires Ranked(WithParent(f, c, p), rank)
    ensures AdoptLoop(WithParent(f, c, p), rank, c, p, Reparent(DeclOf(f), c, Some(p)), f[p].methods, {})
  {
    AdoptStarts(f, rank, c, p);
  }

  /** g is f with p as parent of c: coherent, and nothing declared anywhere else. */
  ghost predicate Adopted(f: Forest, g: Forest, rank: map<ClassId, nat>, c: ClassId, p: ClassId) {
    && Inv(g) && Ranked(g, rank)
    && c in DeclOf(f) && DeclOf(g) == Reparent(DeclOf(f), c, Some(p))
  }

  lemma AdoptLoopEnds(f: Forest, g: Forest, rank: map<ClassId, nat>, c: ClassId, p: ClassId, table: Table,
                      done: set<Name>)
    requires c in DeclOf(f)
    requires AdoptLoop(g, rank, c, p, Reparent(DeclOf(f), c, Some(p)), table, done) && table.Keys <= done
    ensures Adopted(f, g, rank, c, p)
  {
    AdoptEnds(g, rank, c, done);
  }

  lemma AdoptLoopStep(f: Forest, rank: map<ClassId, nat>, c: ClassId, p: ClassId, d: Declared, table: Table,
                      done: set<Name>, n: Name)
    requires AdoptLoop(f, rank, c, p, d, table, done) && n in table && n !in done
    ensures AdoptLoop(AdoptName(f, rank, c, n), rank, c, p, d, table, done + {n})
  {
    AdoptNameStep(f, rank, c, done, n);
  }

  // ----- the loop as a whole

  /** The order in which a loop meets the keys of a hash table: each of them once. */
  ghost predicate Lists(names: seq<Name>, keys: set<Name>) {
    && (forall i, j | 0 <= i < j < |names| :: names[i] != names[j])
    && (forall n :: n in names <==> n in keys)
  }

  lemma ListsMore(names: seq<Name>, keys: set<Name>, n: Name)
    requires Lists(names, keys) && n !in keys
    ensures Lists(names + [n], keys + {n})
  {
    assert forall i | 0 <= i < |names| :: names[i] in names;
  }

  /** The names still to be met when those of `done` have been. */
  predicate Left(names: seq<Name>, keys: set<Name>, done: set<Name>) {
    && (forall i, j | 0 <= i < j < |names| :: names[i] != names[j])
    && (forall n | n in names :: n in keys && n !in done)
  }

  function NameSet(names: seq<Name>): set<Name> {
    set n | n in names
  }

  lemma LeftStep(names: seq<Name>, keys: set<Name>, done: set<Name>)
    requires Left(names, keys, done) && names != []
    ensures names[0] in keys && names[0] !in done && Left(names[1..], keys, done + {names[0]})
    ensures done + {names[0]} + NameSet(names[1..]) == done + NameSet(names)
  {
    assert names == [names[0]] + names[1..];
    forall n | n in names[1..] ensures n in keys && n !in done + {names[0]} {
      var i :| 1 <= i < |names| && names[i] == n;
    }
  }

  ghost predicate CanInherit(f: Forest, rank: map<ClassId, nat>, c: ClassId, n: Name) {
    Ranked(f, rank) && c in f && f[c].parent.Some? && n in f[f[c].parent.value].methods
  }

  /** Handling the parent's entries in this order turns f into g. */
  ghost predicate Inherits(f: Forest, rank: map<ClassId, nat>, c: ClassId, names: seq<Name>, g: Forest)
    decreases |names|
  {
    if names == [] then g == f
    else CanInherit(f, rank, c, names[0]) && Inherits(AdoptName(f, rank, c, names[0]), rank, c, names[1..], g)
  }

  lemma {:induction false} InheritsMore(f: Forest, rank: map<ClassId, nat>, c: ClassId, names: seq<Name>, g: Forest,
                                        n: Name)
    requires Inherits(f, rank, c, names, g) && CanInherit(g, rank, c, n)
    ensures Inherits(f, rank, c, names + [n], AdoptName(g, rank, c, n))
    decreases |names|
  {
    if names == [] {
      assert [n][1..] == [] && names + [n] == [n];
    } else {
      assert (names + [n])[1..] == names[1..] + [n];
      InheritsMore(AdoptName(f, rank, c, names[0]), rank, c, names[1..], g, n);
    }
  }

  /** What adopt does to the class table; `rank` ranks the hierarchy with the new link. */
  ghost predicate Adopts(f: Forest, rank: map<ClassId, nat>, c: ClassId, p: ClassId, g: Forest)
    requires c in f && p in f
  {
    exists names :: Lists(names, f[p].methods.Keys) && Inherits(WithParent(f, c, p), rank, c, names, g)
  }

  lemma {:induction false} InheritsLoop(f: Forest, rank: map<ClassId, nat>, c: ClassId, p: ClassId, d: Declared,
                                        table: Table, done: set<Name>, names: seq<Name>, g: Forest)
    requires AdoptLoop(f, rank, c, p, d, table, done) && Inherits(f, rank, c, names, g)
    requires Left(names, table.Keys, done)
    ensures AdoptLoop(g, rank, c, p, d, table, done + NameSet(names))
    decreases |names|
  {
    if names == [] {
      assert done + NameSet(names) == done;
    } else {
      LeftStep(names, table.Keys, done);
      AdoptLoopStep(f, rank, c, p, d, table, done, names[0]);
      InheritsLoop(AdoptName(f, rank, c, names[0]), rank, c, p, d, table, done + {names[0]}, names[1..], g);
    }
  }

  /** Adopting keeps every invariant and adds nothing to the declarations but the link. */
  lemma AdoptsAdopted(f: Forest, rank: map<ClassId, nat>, c: ClassId, p: ClassId, g: Forest)
    requires Inv(f) && c in f && f[c].parent.None? && p in f && Ranked(WithParent(f, c, p), rank)
    requires Adopts(f, rank, c, p, g)
    ensures Adopted(f, g, rank, c, p)
  {
    var d, table := Reparent(DeclOf(f), c, Some(p)), f[p].methods;
    var names :| Lists(names, table.Keys) && Inherits(WithParent(f, c, p), rank, c, names, g);
    AdoptLoopStarts(f, rank, c, p);
    InheritsLoop(WithParent(f, c, p), rank, c, p, d, table, {}, names, g);
    AdoptLoopEnds(f, g, rank, c, p, table, {} + NameSet(names));
  }

  // ----- emancipation

  /** php_runkit_remove_inherited_methods for c's entry n. */
  ghost function FreeName(f: Forest, rank: map<ClassId, nat>, c: ClassId, n: Name): Forest
    requires Ranked(f, rank) && c in f && n in f[c].methods
  {
    if Own(f, c, n) then f else Uninstall(f, rank, c, n)
  }

  lemma FreeNameDeclares(f: Forest, rank: map<ClassId, nat>, c: ClassId, n: Name)
    requires Ranked(f, rank) && c in f && n in f[c].methods && FlatFor(f, n)
    ensures var h := FreeName(f, rank, c, n);
            SameParents(f, h) && DeclOf(h) == DeclOf(f)
  {
    if !Own(f, c, n) {
      var h := Uninstall(f, rank, c, n);
      UninstallShape(f, rank, c, n);
      forall x | x in f ensures OwnTable(h[x], x) == OwnTable(f[x], x) {
        UninstallOwn(f, rank, c, n, x);
        assert n !in OwnTable(f[c], c);
      }
      SameDeclarations(f, h);
    }
  }

  lemma SameDeclarations(f: Forest, h: Forest)
    requires SameParents(f, h) && forall x | x in f :: OwnTable(h[x], x) == OwnTable(f[x], x)
    ensures DeclOf(h) == DeclOf(f)
  {
    forall x | x in f ensures DeclOf(h)[x] == DeclOf(f)[x] {}
  }

  lemma FreeNameLosesOnly(f: Forest, rank: map<ClassId, nat>, c: ClassId, n: Name)
    requires Ranked(f, rank) && c in f && n in f[c].methods && FlatFor(f, n)
    ensures LosesOnly(f, rank, c, n)
  {
    if !Own(f, c, n) {
      UninstallTables(f, rank, c, n, c);
      DelMagicTable(f[c], n, f[c].methods[n]);
    }
  }

  /** The loop over c's own table loses exactly the entry it is at. */
  ghost predicate LosesOnly(f: Forest, rank: map<ClassId, nat>, c: ClassId, n: Name)
    requires Ranked(f, rank) && c in f && n in f[c].methods
  {
    var h := FreeName(f, rank, c, n);
    c in h && h[c].methods == if Own(f, c, n) then f[c].methods else f[c].methods - {n}
  }

  lemma FreeNameFlat(f: Forest, rank: map<ClassId, nat>, c: ClassId, n: Name)
    requires Ranked(f, rank) && c in f && n in f[c].methods && FlatFor(f, n)
    ensures var h := FreeName(f, rank, c, n);
            c in h && FlatFor(Detached(h, c), n)
  {
    var h := FreeName(f, rank, c, n);
    if Own(f, c, n) {
      DetachedElsewhere(f, c, n);
    } else {
      UninstallKeepsFlat(f, rank, c, n, n);
      FreeNameDeclares(f, rank, c, n);
      DetachedElsewhere(h, c, n);
    }
  }

  /** One turn of the emancipation loop. */
  lemma FreeNameStep(f: Forest, rank: map<ClassId, nat>, c: ClassId, done: set<Name>, n: Name)
    requires Ranked(f, rank) && c in f && n in f[c].methods && n !in done
    requires Indexed(f) && Halfway(f, c, done, false)
    ensures var h := FreeName(f, rank, c, n);
            && SameParents(f, h) && Ranked(h, rank) && DeclOf(h) == DeclOf(f) && LosesOnly(f, rank, c, n)
            && Indexed(h) && Halfway(h, c, done + {n}, false)
  {
    var h := FreeName(f, rank, c, n);
    assert FlatFor(f, n);
    FreeNameDeclares(f, rank, c, n);
    FreeNameLosesOnly(f, rank, c, n);
    FreeNameFlat(f, rank, c, n);
    if !Own(f, c, n) {
      UninstallKeepsIndex(f, rank, c, n);
      forall m | m != n ensures SameFor(f, h, m) {
        UninstallOthers(f, rank, c, n, m);
      }
    }
    HalfwayStep(f, h, c, done, n, false);
  }

  /** When every name of c was handled, cutting the link leaves a coherent table. */
  lemma FreeEnds(f: Forest, rank: map<ClassId, nat>, c: ClassId, done: set<Name>)
    requires Ranked(f, rank) && c in f && Indexed(f) && Halfway(f, c, done, false) && f[c].methods.Keys <= done
    ensures Inv(Detached(f, c)) && DeclOf(Detached(f, c)) == Reparent(DeclOf(f), c, None)
  {
    ReparentIndexed(f, c, None);
    forall n ensures FlatFor(Detached(f, c), n) {
      if n !in done {
        assert FlatFor(f, n);
        assert FlatAt(Detached(f, c), c, n);
        DetachedElsewhere(f, c, n);
      }
    }
  }

  ghost predicate CanFree(f: Forest, rank: map<ClassId, nat>, c: ClassId, n: Name) {
    Ranked(f, rank) && c in f && n in f[c].methods
  }

  /** Handling the entries of c in this order turns f into g. */
  ghost predicate Frees(f: Forest, rank: map<ClassId, nat>, c: ClassId, names: seq<Name>, g: Forest)
    decreases |names|
  {
    if names == [] then g == f
    else CanFree(f, rank, c, names[0]) && Frees(FreeName(f, rank, c, names[0]), rank, c, names[1..], g)
  }

  lemma {:induction false} FreesMore(f: Forest, rank: map<ClassId, nat>, c: ClassId, names: seq<Name>, g: Forest,
                                     n: Name)
    requires Frees(f, rank, c, names, g) && CanFree(g, rank, c, n)
    ensures Frees(f, rank, c, names + [n], FreeName(g, rank, c, n))
    decreases |names|
  {
    if names == [] {
      assert [n][1..] == [] && names + [n] == [n];
    } else {
      assert (names + [n])[1..] == names[1..] + [n];
      FreesMore(FreeName(f, rank, c, names[0]), rank, c, names[1..], g, n);
    }
  }

  /** What emancipate does to the class table. */
  ghost predicate Emancipates(f: Forest, rank: map<ClassId, nat>, c: ClassId, g: Forest)
    requires c in f
  {
    if f[c].parent.None? then g == f
    else exists names, h :: Lists(names, f[c].methods.Keys) && Frees(f, rank, c, names, h) && c in h
           && g == Detached(h, c)
  }

  /** The state of the emancipation loop. */
  ghost predicate FreeLoop(f: Forest, rank: map<ClassId, nat>, c: ClassId, d: Declared, keys: set<Name>,
                           done: set<Name>) {
    && Ranked(f, rank) && c in f && DeclOf(f) == d && f[c].methods.Keys <= keys && keys <= f[c].methods.Keys + done
    && Indexed(f) && Halfway(f, c, done, false)
  }

  lemma FreeLoopStep(f: Forest, rank: map<ClassId, nat>, c: ClassId, d: Declared, keys: set<Name>, done: set<Name>,
                     n: Name)
    requires FreeLoop(f, rank, c, d, keys, done) && n in keys && n !in done
    ensures n in f[c].methods && FreeLoop(FreeName(f, rank, c, n), rank, c, d, keys, done + {n})
  {
    FreeNameStep(f, rank, c, done, n);
  }

  lemma {:induction false} FreesLoop(f: Forest, rank: map<ClassId, nat>, c: ClassId, d: Declared, keys: set<Name>,
                                     done: set<Name>, names: seq<Name>, g: Forest)
    requires FreeLoop(f, rank, c, d, keys, done) && Frees(f, rank, c, names, g)
    requires Left(names, keys, done)
    ensures FreeLoop(g, rank, c, d, keys, done + NameSet(names))
    decreases |names|
  {
    if names == [] {
      assert done + NameSet(names) == done;
    } else {
      LeftStep(names, keys, done);
      FreeLoopStep(f, rank, c, d, keys, done, names[0]);
      FreesLoop(FreeName(f, rank, c, names[0]), rank, c, d, keys, done + {names[0]}, names[1..], g);
    }
  }

  /** Emancipating keeps every invariant and takes nothing from the declarations but the link. */
  lemma EmancipatesFreed(f: Forest, rank: map<ClassId, nat>, c: ClassId, g: Forest)
    requires Inv(f) && Ranked(f, rank) && c in f && Emancipates(f, rank, c, g)
    ensures Inv(g) && Ranked(g, rank) && DeclOf(g) == Reparent(DeclOf(f), c, None)
  {
    if f[c].parent.Some? {
      var names, h :| Lists(names, f[c].methods.Keys) && Frees(f, rank, c, names, h) && c in h && g == Detached(h, c);
      FreesLoop(f, rank, c, DeclOf(f), f[c].methods.Keys, {}, names, h);
      FreeEnds(h, rank, c, {} + NameSet(names));
      DetachedRanked(h, rank, c);
    } else {
      assert DeclOf(f)[c].parent == None;
    }
  }

  /** Every entry of c is c's own, under its own name. */
  predicate OwnOnly(f: Forest, c: ClassId)
    requires c in f
  {
    forall n | n in f[c].methods :: Own(f, c, n) && f[c].methods[n].name == n
  }

  // ----- declarations determine everything

  /** Two coherent tables with the same declarations have the same method tables and slots. */
  lemma {:induction false} DeclarationsDetermine(f: Forest, g: Forest, rank: map<ClassId, nat>, c: ClassId)
    requires Ranked(f, rank) && Ranked(g, rank) && Inv(f) && Inv(g) && DeclOf(f) == DeclOf(g) && c in f
    ensures c in g && f[c].methods == g[c].methods && f[c].slots == g[c].slots
    decreases rank[c]
  {
    assert c in DeclOf(f) && DeclOf(f)[c] == DeclOf(g)[c];
    if f[c].parent.Some? {
      DeclarationsDetermine(f, g, rank, f[c].parent.value);
    }
    forall n ensures Find(f[c].methods, n) == Find(g[c].methods, n) {
      assert FlatFor(f, n) && FlatFor(g, n) && FlatAt(f, c, n) && FlatAt(g, c, n);
      assert Own(f, c, n) <==> n in DeclOf(f)[c].own;
      assert Own(g, c, n) <==> n in DeclOf(g)[c].own;
    }
    SameFinds(f[c].methods, g[c].methods);
    forall k ensures Find(f[c].slots, k) == Find(g[c].slots, k) {
      assert SlotAt(f[c], k) && SlotAt(g[c], k);
    }
    SameFinds(f[c].slots, g[c].slots);
  }

  lemma SameFinds<K, V>(a: map<K, V>, b: map<K, V>)
    requires forall k :: Find(a, k) == Find(b, k)
    ensures a == b
  {
    forall k | k in a ensures k in b && a[k] == b[k] { assert Find(a, k) == Find(b, k); }
    forall k | k in b ensures k in a { assert Find(a, k) == Find(b, k); }
  }

  /** Same tables, slots and parents; the guard flags may differ. */
  ghost predicate SameTables(f: Forest, g: Forest) {
    && f.Keys == g.Keys
    && forall c | c in f ::
         f[c].parent == g[c].parent && f[c].methods == g[c].methods && f[c].slots == g[c].slots
  }

  lemma AllDetermined(f: Forest, g: Forest, rank: map<ClassId, nat>)
    requires Ranked(f, rank) && Ranked(g, rank) && Inv(f) && Inv(g) && DeclOf(f) == DeclOf(g)
    ensures SameTables(f, g)
  {
    assert f.Keys == DeclOf(f).Keys == DeclOf(g).Keys == g.Keys;
    forall c | c in f ensures f[c].parent == g[c].parent && f[c].methods == g[c].methods && f[c].slots == g[c].slots {
      DeclarationsDetermine(f, g, rank, c);
      assert DeclOf(f)[c].parent == DeclOf(g)[c].parent;
    }
  }

  lemma ReparentBack(d: Declared, c: ClassId, p: ClassId)
    requires c in d && d[c].parent.None?
    ensures Reparent(Reparent(d, c, Some(p)), c, None) == d
  {
  }
}
