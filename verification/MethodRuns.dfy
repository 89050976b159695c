/**
 * Runs of method operations.  The declared machine keeps only what each class
 * declares and resolves a call by walking up the parents; the flattened tables
 * and slots of the engine are shown to be a faithful fast form of it.
 */
module MethodRuns {
  import opened Wrappers
  import opened Hierarchy
  import opened Coherence
  import opened MethodOps

  datatype DeclClass = DeclClass(kind: Kind, parent: Option<ClassId>, own: Table)
  type Declared = map<ClassId, DeclClass>

  function OwnTable(c: Class, name: ClassId): Table {
    map n | n in c.methods && c.methods[n].scope == name :: c.methods[n]
  }

  function DeclOf(f: Forest): Declared {
    map c | c in f :: DeclClass(f[c].kind, f[c].parent, OwnTable(f[c], c))
  }

  ghost predicate DRanked(d: Declared, rank: map<ClassId, nat>) {
    && rank.Keys == d.Keys
    && forall c | c in d && d[c].parent.Some? ::
         d[c].parent.value in d && rank[d[c].parent.value] < rank[c]
  }

  /** Method resolution: the class's own declaration, else the parent's answer. */
  ghost function Resolve(d: Declared, rank: map<ClassId, nat>, c: ClassId, n: Name): Option<Func>
    requires DRanked(d, rank) && c in d
    decreases rank[c]
  {
    if n in d[c].own then Some(d[c].own[n])
    else if d[c].parent.None? then None
    else Resolve(d, rank, d[c].parent.value, n)
  }

  /** What the parent of c answers for n. */
  ghost function Offered(d: Declared, rank: map<ClassId, nat>, c: ClassId, n: Name): Option<Func>
    requires DRanked(d, rank) && c in d
  {
    if d[c].parent.None? then None else Resolve(d, rank, d[c].parent.value, n)
  }

  // ----- the declared machine

  function Define(d: Declared, c: ClassId, fe: Func): Declared
    requires c in d
  {
    d[c := d[c].(own := d[c].own[fe.name := fe])]
  }

  function Undefine(d: Declared, c: ClassId, n: Name): Declared
    requires c in d
  {
    d[c := d[c].(own := d[c].own - {n})]
  }

  datatype Op =
    | Add(c: ClassId, n: Name, id: nat, body: nat)
    | Redefine(c: ClassId, n: Name, id: nat, body: nat, active: set<nat>)
    | Copy(dc: ClassId, dn: Name, sc: ClassId, sn: Name, id: nat)
    | Remove(c: ClassId, n: Name)
    | Rename(c: ClassId, n: Name, m: Name, id: nat)

  ghost predicate DHas(d: Declared, rank: map<ClassId, nat>, c: ClassId, n: Name)
    requires DRanked(d, rank)
  {
    c in d && !d[c].kind.InternalClass? && Resolve(d, rank, c, n).Some? && Resolve(d, rank, c, n).value.user
  }

  ghost function DAdd(d: Declared, c: ClassId, n: Name, id: nat, body: nat): (Declared, bool) {
    if c !in d || !d[c].kind.UserClass? || n in d[c].own then (d, false)
    else (Define(d, c, Func(id, n, c, body, true)), true)
  }

  ghost function DStep(d: Declared, rank: map<ClassId, nat>, op: Op): (Declared, bool)
    requires DRanked(d, rank)
  {
    match op
    case Add(c, n, id, body) => DAdd(d, c, n, id, body)
    case Redefine(c, n, id, body, active) =>
      if !DHas(d, rank, c, n) || Resolve(d, rank, c, n).value.id in active then (d, false)
      else (Define(d, c, Func(id, n, c, body, true)), true)
    case Copy(dc, dn, sc, sn, id) =>
      if !DHas(d, rank, sc, sn) then (d, false)
      else DAdd(d, dc, dn, id, Resolve(d, rank, sc, sn).value.body)
    case Remove(c, n) =>
      if !DHas(d, rank, c, n) then (d, false) else (Undefine(d, c, n), true)
    case Rename(c, n, m, id) =>
      if !DHas(d, rank, c, n) || m in d[c].own then (d, false)
      else (Define(Undefine(d, c, n), c, Func(id, m, c, Resolve(d, rank, c, n).value.body, true)), true)
  }

  /** The guards: nothing inherited is overridden by add, copy or rename, and nothing overriding is removed. */
  ghost predicate Guard(d: Declared, rank: map<ClassId, nat>, op: Op)
    requires DRanked(d, rank)
  {
    match op
    case Add(c, n, _, _) => c in d ==> n in d[c].own || Offered(d, rank, c, n).None?
    case Redefine(_, _, _, _, _) => true
    case Copy(dc, dn, _, _, _) => dc in d ==> dn in d[dc].own || Offered(d, rank, dc, dn).None?
    case Remove(c, n) => c in d ==> Offered(d, rank, c, n).None?
    case Rename(c, n, m, _) =>
      c in d ==> Offered(d, rank, c, n).None? && (m in d[c].own || Offered(d, rank, c, m).None?)
  }

  // ----- the engine

  ghost function Step(f: Forest, rank: map<ClassId, nat>, op: Op): (Forest, bool)
    requires Ranked(f, rank)
  {
    match op
    case Add(c, n, id, body) => AddMethod(f, rank, c, n, id, body)
    case Redefine(c, n, id, body, active) => RedefineMethod(f, rank, c, n, id, body, active)
    case Copy(dc, dn, sc, sn, id) => CopyMethod(f, rank, dc, dn, sc, sn, id)
    case Remove(c, n) => RemoveMethod(f, rank, c, n)
    case Rename(c, n, m, id) => RenameMethod(f, rank, c, n, m, id)
  }

  // ----- the two views agree on lookups

  lemma {:induction false} NearestIsResolve(f: Forest, rank: map<ClassId, nat>, c: ClassId, n: Name)
    requires Ranked(f, rank) && DRanked(DeclOf(f), rank) && c in f
    ensures NearestDefiner(f, rank, c, n) == Resolve(DeclOf(f), rank, c, n)
    decreases rank[c]
  {
    assert Own(f, c, n) <==> n in DeclOf(f)[c].own;
    if f[c].parent.Some? {
      NearestIsResolve(f, rank, f[c].parent.value, n);
    }
  }

  /** In a coherent engine one hash lookup answers what the walk up the parents answers. */
  lemma LookupResolves(f: Forest, rank: map<ClassId, nat>, c: ClassId, n: Name)
    requires Ranked(f, rank) && DRanked(DeclOf(f), rank) && Inv(f) && c in f
    ensures Find(f[c].methods, n) == Resolve(DeclOf(f), rank, c, n)
    ensures Inherited(f, c, n) == Offered(DeclOf(f), rank, c, n)
    ensures Own(f, c, n) <==> n in DeclOf(f)[c].own
  {
    assert FlatFor(f, n);
    FlatGivesNearest(f, rank, c, n);
    NearestIsResolve(f, rank, c, n);
    if f[c].parent.Some? {
      FlatGivesNearest(f, rank, f[c].parent.value, n);
      NearestIsResolve(f, rank, f[c].parent.value, n);
    }
  }

  // ----- each building block is one change of declarations

  lemma InstallOwn(f: Forest, rank: map<ClassId, nat>, top: ClassId, ch: Change, c: ClassId)
    requires Ranked(f, rank) && top in f && ch.fe.scope == top && FlatFor(f, ch.name) && c in f
    requires ch.orig == Find(f[top].methods, ch.name)
    requires ch.ancestor == if ch.orig.Some? then ch.orig.value.scope else top
    ensures c in Install(f, rank, top, ch)
    ensures OwnTable(Install(f, rank, top, ch)[c], c)
            == if c == top then OwnTable(f[c], c)[ch.name := ch.fe] else OwnTable(f[c], c)
  {
    InstallTables(f, rank, top, ch, c);
    ScopeFits(f, rank, top, ch);
  }

  lemma UninstallOwn(f: Forest, rank: map<ClassId, nat>, top: ClassId, n: Name, c: ClassId)
    requires Ranked(f, rank) && top in f && n in f[top].methods && FlatFor(f, n) && c in f
    ensures c in Uninstall(f, rank, top, n)
    ensures OwnTable(Uninstall(f, rank, top, n)[c], c)
            == if c == top then OwnTable(f[c], c) - {n} else OwnTable(f[c], c)
  {
    UninstallTables(f, rank, top, n, c);
    DelMagicTable(f[c], n, f[top].methods[n]);
    var h := Uninstall(f, rank, top, n);
    if !Loses(f, rank, top, n, c) {
      assert h[c] == f[c];
    } else {
      assert h[c].methods == f[c].methods - {n};
      if c != top {
        ScopeAbove(f, rank, top, n);
        UnderRank(f, rank, c, top);
      }
      OwnAfterDrop(f[c], h[c], n, c);
    }
  }

  lemma OwnAfterDrop(c: Class, h: Class, n: Name, name: ClassId)
    requires h.methods == c.methods - {n}
    ensures OwnTable(h, name) == OwnTable(c, name) - {n}
    ensures (n in c.methods ==> c.methods[n].scope != name) ==> OwnTable(h, name) == OwnTable(c, name)
  {
  }

  lemma DropAbsent(c: Class, n: Name)
    requires n !in c.methods
    ensures Drop(c, n) == c
  {
    assert c.methods - {n} == c.methods;
  }

  lemma OneDeclarationChanged(f: Forest, h: Forest, top: ClassId, own: Table)
    requires SameParents(f, h) && top in f
    requires forall c | c in f :: OwnTable(h[c], c) == if c == top then own else OwnTable(f[c], c)
    ensures DeclOf(h) == DeclOf(f)[top := DeclOf(f)[top].(own := own)]
  {
  }

  lemma InstallDeclares(f: Forest, rank: map<ClassId, nat>, top: ClassId, ch: Change)
    requires Ranked(f, rank) && Inv(f) && top in f && ch.fe.scope == top && ch.fe.name == ch.name
    requires ch.orig == Find(f[top].methods, ch.name)
    requires ch.ancestor == if ch.orig.Some? then ch.orig.value.scope else top
    ensures DeclOf(Install(f, rank, top, ch)) == Define(DeclOf(f), top, ch.fe)
  {
    assert FlatFor(f, ch.name);
    InstallTables(f, rank, top, ch, top);
    var h, own := Install(f, rank, top, ch), OwnTable(f[top], top)[ch.name := ch.fe];
    forall c | c in f ensures OwnTable(h[c], c) == if c == top then own else OwnTable(f[c], c) {
      InstallOwn(f, rank, top, ch, c);
    }
    OneDeclarationChanged(f, h, top, own);
  }

  lemma UninstallDeclares(f: Forest, rank: map<ClassId, nat>, top: ClassId, n: Name)
    requires Ranked(f, rank) && Inv(f) && top in f && n in f[top].methods
    ensures DeclOf(Uninstall(f, rank, top, n)) == Undefine(DeclOf(f), top, n)
  {
    assert FlatFor(f, n);
    UninstallShape(f, rank, top, n);
    var h, own := Uninstall(f, rank, top, n), OwnTable(f[top], top) - {n};
    forall c | c in f ensures OwnTable(h[c], c) == if c == top then own else OwnTable(f[c], c) {
      UninstallOwn(f, rank, top, n, c);
    }
    OneDeclarationChanged(f, h, top, own);
  }

  // ----- each operation refines its step of the declared machine

  lemma AddRefines(f: Forest, rank: map<ClassId, nat>, c: ClassId, n: Name, id: nat, body: nat)
    requires Ranked(f, rank) && DRanked(DeclOf(f), rank) && Inv(f)
    requires c in f ==> n in DeclOf(f)[c].own || Offered(DeclOf(f), rank, c, n).None?
    ensures var (h, ok) := AddMethod(f, rank, c, n, id, body);
            SameParents(f, h) && Inv(h) && (DeclOf(h), ok) == DAdd(DeclOf(f), c, n, id, body)
  {
    if c in f {
      LookupResolves(f, rank, c, n);
      if Modifiable(f, c) && !Own(f, c, n) {
        assert FlatFor(f, n) && FlatAt(f, c, n);
        DropAbsent(f[c], n);
        assert f[c := f[c]] == f;
        var ch := Change(c, n, Func(id, n, c, body, true), None);
        InstallTables(f, rank, c, ch, c);
        InstallKeepsInv(f, rank, c, ch);
        InstallDeclares(f, rank, c, ch);
      }
    }
  }

  lemma RedefineRefines(f: Forest, rank: map<ClassId, nat>, c: ClassId, n: Name, id: nat, body: nat, active: set<nat>)
    requires Ranked(f, rank) && DRanked(DeclOf(f), rank) && Inv(f)
    ensures var (h, ok) := RedefineMethod(f, rank, c, n, id, body, active);
            SameParents(f, h) && Inv(h) && (DeclOf(h), ok) == DStep(DeclOf(f), rank, Redefine(c, n, id, body, active))
  {
    if c in f {
      LookupResolves(f, rank, c, n);
      if HasUserMethod(f, c, n) && f[c].methods[n].id !in active {
        var gone := f[c].methods[n];
        var ch := Change(gone.scope, n, Func(id, n, c, body, true), Some(gone));
        InstallTables(f, rank, c, ch, c);
        InstallKeepsInv(f, rank, c, ch);
        InstallDeclares(f, rank, c, ch);
      }
    }
  }

  lemma RemoveRefines(f: Forest, rank: map<ClassId, nat>, c: ClassId, n: Name)
    requires Ranked(f, rank) && DRanked(DeclOf(f), rank) && Inv(f)
    requires c in f ==> Offered(DeclOf(f), rank, c, n).None?
    ensures var (h, ok) := RemoveMethod(f, rank, c, n);
            SameParents(f, h) && Inv(h) && (DeclOf(h), ok) == DStep(DeclOf(f), rank, Remove(c, n))
  {
    if c in f {
      LookupResolves(f, rank, c, n);
      if HasUserMethod(f, c, n) {
        UninstallShape(f, rank, c, n);
        UninstallKeepsInv(f, rank, c, n);
        UninstallDeclares(f, rank, c, n);
      }
    }
  }

  /** A rename under its guard is a removal followed by an addition. */
  lemma UninstallThenInstall(f: Forest, rank: map<ClassId, nat>, c: ClassId, n: Name, m: Name, id: nat)
    requires Ranked(f, rank) && Inv(f) && c in f && n in f[c].methods && m !in f[c].methods
    requires Inherited(f, c, n).None?
    ensures var g := Uninstall(f, rank, c, n);
            var fe := Func(id, m, c, f[c].methods[n].body, true);
            && Ranked(g, rank) && c in g
            && var h := Install(g, rank, c, Change(c, m, fe, None));
               SameParents(f, h) && Inv(h) && DeclOf(h) == Define(Undefine(DeclOf(f), c, n), c, fe)
  {
    var g := Uninstall(f, rank, c, n);
    UninstallShape(f, rank, c, n);
    UninstallKeepsInv(f, rank, c, n);
    UninstallDeclares(f, rank, c, n);
    UninstallTopLacks(f, rank, c, n, m);
    var ch := Change(c, m, Func(id, m, c, f[c].methods[n].body, true), None);
    InstallTables(g, rank, c, ch, c);
    InstallKeepsInv(g, rank, c, ch);
    InstallDeclares(g, rank, c, ch);
  }

  lemma UninstallTopLacks(f: Forest, rank: map<ClassId, nat>, c: ClassId, n: Name, m: Name)
    requires Ranked(f, rank) && c in f && n in f[c].methods && m !in f[c].methods
    ensures c in Uninstall(f, rank, c, n) && m !in Uninstall(f, rank, c, n)[c].methods
  {
    DelMagicTable(f[c], n, f[c].methods[n]);
  }

  lemma RenameIsBoth(f: Forest, rank: map<ClassId, nat>, c: ClassId, n: Name, m: Name, id: nat)
    requires Ranked(f, rank) && HasUserMethod(f, c, n) && m !in f[c].methods
    ensures var g := Uninstall(f, rank, c, n);
            && Ranked(g, rank) && c in g
            && RenameMethod(f, rank, c, n, m, id)
               == (Install(g, rank, c, Change(c, m, Func(id, m, c, f[c].methods[n].body, true), None)), true)
  {
    DropAbsent(f[c], m);
    UninstallShape(f, rank, c, n);
  }

  lemma RenameRefines(f: Forest, rank: map<ClassId, nat>, c: ClassId, n: Name, m: Name, id: nat)
    requires Ranked(f, rank) && DRanked(DeclOf(f), rank) && Inv(f)
    requires c in f ==> Offered(DeclOf(f), rank, c, n).None?
    requires c in f ==> m in DeclOf(f)[c].own || Offered(DeclOf(f), rank, c, m).None?
    ensures var (h, ok) := RenameMethod(f, rank, c, n, m, id);
            SameParents(f, h) && Inv(h) && (DeclOf(h), ok) == DStep(DeclOf(f), rank, Rename(c, n, m, id))
  {
    if c in f {
      LookupResolves(f, rank, c, n);
      LookupResolves(f, rank, c, m);
      assert FlatFor(f, n) && FlatAt(f, c, n) && FlatFor(f, m) && FlatAt(f, c, m);
      if HasUserMethod(f, c, n) && !Own(f, c, m) {
        RenameIsBoth(f, rank, c, n, m, id);
        UninstallThenInstall(f, rank, c, n, m, id);
      }
    }
  }

  /** One guarded operation: same outcome, same declarations, invariants kept. */
  lemma StepRefines(f: Forest, rank: map<ClassId, nat>, op: Op)
    requires Ranked(f, rank) && DRanked(DeclOf(f), rank) && Inv(f) && Guard(DeclOf(f), rank, op)
    ensures var (h, ok) := Step(f, rank, op);
            SameParents(f, h) && Ranked(h, rank) && Inv(h) && (DeclOf(h), ok) == DStep(DeclOf(f), rank, op)
  {
    match op
    case Add(c, n, id, body) => AddRefines(f, rank, c, n, id, body);
    case Redefine(c, n, id, body, active) => RedefineRefines(f, rank, c, n, id, body, active);
    case Copy(dc, dn, sc, sn, id) =>
      if sc in f {
        LookupResolves(f, rank, sc, sn);
        if HasUserMethod(f, sc, sn) {
          AddRefines(f, rank, dc, dn, id, f[sc].methods[sn].body);
        }
      }
    case Remove(c, n) => RemoveRefines(f, rank, c, n);
    case Rename(c, n, m, id) => RenameRefines(f, rank, c, n, m, id);
  }

  // ----- runs

  ghost function DRun(d: Declared, rank: map<ClassId, nat>, ops: seq<Op>): Declared
    requires DRanked(d, rank)
  {
    if ops == [] then d
    else
      var e := DStep(d, rank, ops[0]).0;
      if DRanked(e, rank) then DRun(e, rank, ops[1..]) else e
  }

  ghost function Run(f: Forest, rank: map<ClassId, nat>, ops: seq<Op>): Forest
    requires Ranked(f, rank)
  {
    if ops == [] then f
    else
      var h := Step(f, rank, ops[0]).0;
      if Ranked(h, rank) then Run(h, rank, ops[1..]) else h
  }

  /** Every operation meets its guard in the state it runs in. */
  ghost predicate Guarded(d: Declared, rank: map<ClassId, nat>, ops: seq<Op>)
    requires DRanked(d, rank)
  {
    ops != [] ==>
      var e := DStep(d, rank, ops[0]).0;
      Guard(d, rank, ops[0]) && DRanked(e, rank) && Guarded(e, rank, ops[1..])
  }

  /**
   * Main result: over every guarded run the tables stay flat, the slots stay an
   * exact index and every lookup in the engine's table is the walk up the parents
   * in the machine that stores declarations only.
   */
  lemma {:induction false} RunRefines(f: Forest, rank: map<ClassId, nat>, ops: seq<Op>)
    requires Ranked(f, rank) && DRanked(DeclOf(f), rank) && Inv(f) && Guarded(DeclOf(f), rank, ops)
    ensures var h := Run(f, rank, ops);
            && Ranked(h, rank) && Inv(h) && DeclOf(h) == DRun(DeclOf(f), rank, ops) && DRanked(DeclOf(h), rank)
            && forall c, n | c in h :: Find(h[c].methods, n) == Resolve(DeclOf(h), rank, c, n)
  {
    if ops == [] {
      forall c, n | c in f ensures Find(f[c].methods, n) == Resolve(DeclOf(f), rank, c, n) {
        LookupResolves(f, rank, c, n);
      }
    } else {
      StepRefines(f, rank, ops[0]);
      RunRefines(Step(f, rank, ops[0]).0, rank, ops[1..]);
    }
  }
}
