/**
 * The five method operations of runkit_methods.c as functions on the class table,
 * and what their two building blocks, installing and removing an entry, keep.
 */
module MethodOps {
  import opened Wrappers
  import opened Hierarchy
  import opened Coherence

  ghost predicate Inv(f: Forest) {
    Indexed(f) && Flat(f)
  }

  // ----- building blocks of the operations

  /** Store fe in top, run the add chain, then the update pass. */
  ghost function Install(f: Forest, rank: map<ClassId, nat>, top: ClassId, ch: Change): Forest
    requires Ranked(f, rank) && top in f
  {
    UpdateBelow(f[top := AddMagic(Put(f[top], ch.name, ch.fe), ch.name, ch.fe, ch.orig)], rank, top, ch)
  }

  /** Add and copy: drop the entry under fe's name, then install fe as if there had been none. */
  ghost function Place(f: Forest, rank: map<ClassId, nat>, c: ClassId, fe: Func): Forest
    requires Ranked(f, rank) && c in f
  {
    Install(f[c := Drop(f[c], fe.name)], rank, c, Change(c, fe.name, fe, None))
  }

  /** The clean pass for top's entry n, then the entry and its slot in top itself. */
  ghost function Uninstall(f: Forest, rank: map<ClassId, nat>, top: ClassId, n: Name): Forest
    requires Ranked(f, rank) && top in f && n in f[top].methods
  {
    var gone := f[top].methods[n];
    CleanBelow(f, rank, top, gone.scope, n, gone)[top := DelMagic(Drop(f[top], n), gone)]
  }

  // ----- the operations; the flag is the returned boolean

  /** php_runkit_fetch_class accepts user classes that are not interfaces. */
  predicate Modifiable(f: Forest, c: ClassId) {
    c in f && f[c].kind.UserClass?
  }

  /** php_runkit_fetch_class_method: any user-declared class, and the entry must be a user function. */
  predicate HasUserMethod(f: Forest, c: ClassId, n: Name) {
    c in f && !f[c].kind.InternalClass? && n in f[c].methods && f[c].methods[n].user
  }

  ghost function AddMethod(f: Forest, rank: map<ClassId, nat>, c: ClassId, n: Name, id: nat, body: nat): (Forest, bool)
    requires Ranked(f, rank)
  {
    if !Modifiable(f, c) || Own(f, c, n) then (f, false)
    else (Place(f, rank, c, Func(id, n, c, body, true)), true)
  }

  ghost function RedefineMethod(f: Forest, rank: map<ClassId, nat>, c: ClassId, n: Name, id: nat, body: nat,
                                active: set<nat>): (Forest, bool)
    requires Ranked(f, rank)
  {
    if !HasUserMethod(f, c, n) || f[c].methods[n].id in active then (f, false)
    else
      var gone := f[c].methods[n];
      (Install(f, rank, c, Change(gone.scope, n, Func(id, n, c, body, true), Some(gone))), true)
  }

  ghost function CopyMethod(f: Forest, rank: map<ClassId, nat>, dc: ClassId, dn: Name, sc: ClassId, sn: Name,
                            id: nat): (Forest, bool)
    requires Ranked(f, rank)
  {
    if !HasUserMethod(f, sc, sn) then (f, false)
    else AddMethod(f, rank, dc, dn, id, f[sc].methods[sn].body)
  }

  ghost function RemoveMethod(f: Forest, rank: map<ClassId, nat>, c: ClassId, n: Name): (Forest, bool)
    requires Ranked(f, rank)
  {
    if !HasUserMethod(f, c, n) then (f, false) else (Uninstall(f, rank, c, n), true)
  }

  /** The table rename installs the new name into. */
  ghost function RenameBase(f: Forest, rank: map<ClassId, nat>, c: ClassId, n: Name, m: Name, fe: Func): Forest
    requires Ranked(f, rank) && c in f
  {
    CleanBelow(f, rank, c, fe.scope, n, fe)[c := DelMagic(Drop(Drop(f[c], m), n), fe)]
  }

  /** Renaming onto an inherited name drops that entry first; renaming to itself then loses the method. */
  ghost function RenameMethod(f: Forest, rank: map<ClassId, nat>, c: ClassId, n: Name, m: Name, id: nat): (Forest, bool)
    requires Ranked(f, rank)
  {
    if !HasUserMethod(f, c, n) || Own(f, c, m) then (f, false)
    else
      var fe := f[c].methods[n];
      var g := RenameBase(f, rank, c, n, m, fe);
      if n == m then (g, false)
      else (Install(g, rank, c, Change(c, m, Func(id, m, c, fe.body, true), None)), true)
  }

  // ----- removal

  lemma {:induction false} CleanedUnder(f: Forest, rank: map<ClassId, nat>, top: ClassId, ancestor: ClassId, n: Name,
                                        c: ClassId)
    requires Ranked(f, rank) && c in f && Cleaned(f, rank, top, ancestor, n, c)
    ensures Under(f, rank, c, top)
    decreases rank[c]
  {
    if f[c].parent.value != top {
      CleanedUnder(f, rank, top, ancestor, n, f[c].parent.value);
    }
  }

  /** In a flat forest the clean pass reaches exactly the classes that inherit top's entry. */
  lemma CleanedIff(f: Forest, rank: map<ClassId, nat>, top: ClassId, n: Name, c: ClassId)
    requires Ranked(f, rank) && FlatFor(f, n) && top in f && n in f[top].methods && c in f
    ensures Cleaned(f, rank, top, f[top].methods[n].scope, n, c)
            <==> Under(f, rank, c, top) && Find(f[c].methods, n) == Some(f[top].methods[n])
  {
    if Cleaned(f, rank, top, f[top].methods[n].scope, n, c) {
      CleanedUnder(f, rank, top, f[top].methods[n].scope, n, c);
      SameAsTop(f, rank, top, n, c);
    } else if Under(f, rank, c, top) && Find(f[c].methods, n) == Some(f[top].methods[n]) {
      SameAsTop(f, rank, top, n, c);
    }
  }

  lemma UninstallShape(f: Forest, rank: map<ClassId, nat>, top: ClassId, n: Name)
    requires Ranked(f, rank) && top in f && n in f[top].methods
    ensures SameParents(f, Uninstall(f, rank, top, n))
  {
  }

  /** Whether Uninstall takes the entry out of class c. */
  ghost predicate Loses(f: Forest, rank: map<ClassId, nat>, top: ClassId, n: Name, c: ClassId)
    requires Ranked(f, rank) && top in f && n in f[top].methods && c in f
  {
    c == top || (Under(f, rank, c, top) && Find(f[c].methods, n) == Some(f[top].methods[n]))
  }

  lemma UninstallTables(f: Forest, rank: map<ClassId, nat>, top: ClassId, n: Name, c: ClassId)
    requires Ranked(f, rank) && FlatFor(f, n) && top in f && n in f[top].methods && c in f
    ensures c in Uninstall(f, rank, top, n)
    ensures Uninstall(f, rank, top, n)[c]
            == if Loses(f, rank, top, n, c) then DelMagic(Drop(f[c], n), f[top].methods[n]) else f[c]
  {
    CleanedIff(f, rank, top, n, c);
  }

  lemma DelMagicTable(c: Class, n: Name, fe: Func)
    ensures DelMagic(Drop(c, n), fe).methods == c.methods - {n}
    ensures DelMagic(Drop(c, n), fe).parent == c.parent && DelMagic(Drop(c, n), fe).guards == c.guards
  {
  }

  lemma UninstallFlatAt(f: Forest, rank: map<ClassId, nat>, top: ClassId, n: Name, c: ClassId)
    requires Ranked(f, rank) && FlatFor(f, n) && top in f && n in f[top].methods && c in f && c != top
    ensures FlatAt(Uninstall(f, rank, top, n), c, n)
  {
    assert FlatAt(f, c, n);
    UninstallTables(f, rank, top, n, c);
    if f[c].parent.Some? {
      UninstallTables(f, rank, top, n, f[c].parent.value);
      if Loses(f, rank, top, n, c) {
        UnderRank(f, rank, c, top);
        ScopeAbove(f, rank, top, n);
      }
    }
  }

  lemma UninstallOthers(f: Forest, rank: map<ClassId, nat>, top: ClassId, n: Name, m: Name)
    requires Ranked(f, rank) && FlatFor(f, n) && top in f && n in f[top].methods && m != n
    ensures SameFor(f, Uninstall(f, rank, top, n), m)
  {
    UninstallShape(f, rank, top, n);
    forall c | c in f ensures Find(Uninstall(f, rank, top, n)[c].methods, m) == Find(f[c].methods, m) {
      UninstallTables(f, rank, top, n, c);
      DelMagicTable(f[c], n, f[top].methods[n]);
    }
  }

  lemma UninstallKeepsFlat(f: Forest, rank: map<ClassId, nat>, top: ClassId, n: Name, m: Name)
    requires Ranked(f, rank) && FlatFor(f, n) && top in f && n in f[top].methods && FlatElsewhere(f, top, m)
    ensures FlatElsewhere(Uninstall(f, rank, top, n), top, m)
  {
    UninstallShape(f, rank, top, n);
    forall c | c in f && c != top ensures FlatAt(Uninstall(f, rank, top, n), c, m) {
      if m == n {
        UninstallFlatAt(f, rank, top, n, c);
      } else {
        UninstallOthers(f, rank, top, n, m);
        SameForFlatAt(f, Uninstall(f, rank, top, n), c, m);
      }
    }
  }

  lemma UninstallKeepsIndexAt(f: Forest, rank: map<ClassId, nat>, top: ClassId, n: Name, c: ClassId, k: Magic)
    requires Ranked(f, rank) && FlatFor(f, n) && Indexed(f) && top in f && n in f[top].methods && c in f
    ensures SlotAt(Uninstall(f, rank, top, n)[c], k) && GuardedSlot(Uninstall(f, rank, top, n)[c], k)
  {
    UninstallTables(f, rank, top, n, c);
    assert SlotAt(f[c], k) && GuardedSlot(f[c], k);
    if Loses(f, rank, top, n, c) {
      assert forall j :: SlotAt(f[c], j);
      DelMagicIndexes(f[c], n, k);
    }
  }

  lemma UninstallKeepsIndex(f: Forest, rank: map<ClassId, nat>, top: ClassId, n: Name)
    requires Ranked(f, rank) && FlatFor(f, n) && Indexed(f) && top in f && n in f[top].methods
    ensures Indexed(Uninstall(f, rank, top, n))
  {
    UninstallShape(f, rank, top, n);
    forall c, k | c in f
      ensures SlotAt(Uninstall(f, rank, top, n)[c], k) && GuardedSlot(Uninstall(f, rank, top, n)[c], k)
    {
      UninstallKeepsIndexAt(f, rank, top, n, c, k);
    }
    forall c, m | c in f && m in Uninstall(f, rank, top, n)[c].methods
      ensures Uninstall(f, rank, top, n)[c].methods[m].name == m
    {
      UninstallTables(f, rank, top, n, c);
      DelMagicTable(f[c], n, f[top].methods[n]);
    }
  }

  // ----- installation

  lemma InstallStored(f: Forest, top: ClassId, ch: Change)
    requires top in f
    ensures Stored(f, f[top := AddMagic(Put(f[top], ch.name, ch.fe), ch.name, ch.fe, ch.orig)], top, ch.name, ch.fe)
  {
  }

  /** The tables after Install. */
  lemma InstallTables(f: Forest, rank: map<ClassId, nat>, top: ClassId, ch: Change, c: ClassId)
    requires Ranked(f, rank) && top in f && c in f
    ensures SameParents(f, Install(f, rank, top, ch))
    ensures Install(f, rank, top, ch)[c].methods
            == if c == top || (Under(f, rank, c, top) && Open(f[c], ch.name, ch.ancestor))
               then f[c].methods[ch.name := ch.fe] else f[c].methods
  {
    var g := f[top := AddMagic(Put(f[top], ch.name, ch.fe), ch.name, ch.fe, ch.orig)];
    InstallStored(f, top, ch);
    SameUnder(f, g, rank, c, top);
    NotUnderItself(g, rank, top);
    UpdateBelowTables(g, rank, top, ch);
  }

  lemma InstallKeepsFlat(f: Forest, rank: map<ClassId, nat>, top: ClassId, ch: Change, n: Name)
    requires Ranked(f, rank) && FlatElsewhere(f, top, ch.name) && FlatElsewhere(f, top, n) && Fits(f, rank, top, ch)
    ensures FlatElsewhere(Install(f, rank, top, ch), top, n)
  {
    var g := f[top := AddMagic(Put(f[top], ch.name, ch.fe), ch.name, ch.fe, ch.orig)];
    InstallStored(f, top, ch);
    UpdateKeepsFlat(f, g, rank, top, ch, n);
  }

  lemma InstallKeepsIndexed(f: Forest, rank: map<ClassId, nat>, top: ClassId, ch: Change)
    requires Ranked(f, rank) && FlatElsewhere(f, top, ch.name) && Fits(f, rank, top, ch)
    requires Indexed(f) && ch.fe.name == ch.name
    ensures Indexed(Install(f, rank, top, ch))
  {
    var g := f[top := AddMagic(Put(f[top], ch.name, ch.fe), ch.name, ch.fe, ch.orig)];
    InstallStored(f, top, ch);
    InstallKeepsIndex(f, top, ch.name, ch.fe);
    UpdateKeepsIndex(f, g, rank, top, ch);
  }

  /** Flat everywhere but at top, and top's entry is its own or its parent's. */
  lemma FlatFromElsewhere(h: Forest, top: ClassId, n: Name)
    requires top in h && FlatElsewhere(h, top, n) && FlatAt(h, top, n)
    ensures FlatFor(h, n)
  {
  }

  lemma InstallTopFlat(f: Forest, rank: map<ClassId, nat>, top: ClassId, ch: Change, n: Name)
    requires Ranked(f, rank) && top in f && ch.fe.scope == top && FlatFor(f, n)
    ensures FlatAt(Install(f, rank, top, ch), top, n)
  {
    InstallTables(f, rank, top, ch, top);
    NotUnderItself(f, rank, top);
    assert FlatAt(f, top, n);
    if f[top].parent.Some? {
      var p := f[top].parent.value;
      InstallTables(f, rank, top, ch, p);
      if Under(f, rank, p, top) {
        UnderRank(f, rank, p, top);
      }
    }
  }

  /** Installing an own entry whose ancestor is the scope of what it replaces keeps every invariant. */
  lemma InstallKeepsInv(f: Forest, rank: map<ClassId, nat>, top: ClassId, ch: Change)
    requires Ranked(f, rank) && Inv(f) && top in f && ch.fe.scope == top && ch.fe.name == ch.name
    requires ch.orig == Find(f[top].methods, ch.name)
    requires ch.ancestor == if ch.orig.Some? then ch.orig.value.scope else top
    ensures Inv(Install(f, rank, top, ch))
  {
    assert FlatFor(f, ch.name);
    ScopeFits(f, rank, top, ch);
    InstallKeepsIndexed(f, rank, top, ch);
    forall n ensures FlatFor(Install(f, rank, top, ch), n) {
      assert FlatFor(f, n);
      InstallKeepsFlat(f, rank, top, ch, n);
      InstallTopFlat(f, rank, top, ch, n);
      InstallTables(f, rank, top, ch, top);
      FlatFromElsewhere(Install(f, rank, top, ch), top, n);
    }
  }

  /** Removing an entry the parent does not offer keeps every invariant. */
  lemma UninstallKeepsInv(f: Forest, rank: map<ClassId, nat>, top: ClassId, n: Name)
    requires Ranked(f, rank) && Inv(f) && top in f && n in f[top].methods && Inherited(f, top, n).None?
    ensures Inv(Uninstall(f, rank, top, n))
  {
    assert FlatFor(f, n);
    UninstallKeepsIndex(f, rank, top, n);
    UninstallShape(f, rank, top, n);
    forall m ensures FlatFor(Uninstall(f, rank, top, n), m) {
      assert FlatFor(f, m);
      UninstallKeepsFlat(f, rank, top, n, m);
      if m == n {
        UninstallTopIff(f, rank, top, n);
      } else {
        UninstallOthers(f, rank, top, n, m);
        assert FlatAt(f, top, m);
        SameForFlatAt(f, Uninstall(f, rank, top, n), top, m);
      }
      FlatFromElsewhere(Uninstall(f, rank, top, n), top, m);
    }
  }

  /** After a removal top agrees with its parent exactly when the parent never offered the name. */
  lemma UninstallTopIff(f: Forest, rank: map<ClassId, nat>, top: ClassId, n: Name)
    requires Ranked(f, rank) && FlatFor(f, n) && top in f && n in f[top].methods
    ensures top in Uninstall(f, rank, top, n)
    ensures FlatAt(Uninstall(f, rank, top, n), top, n) <==> Inherited(f, top, n).None?
  {
    UninstallShape(f, rank, top, n);
    UninstallTables(f, rank, top, n, top);
    DelMagicTable(f[top], n, f[top].methods[n]);
    if f[top].parent.Some? {
      var p := f[top].parent.value;
      UninstallTables(f, rank, top, n, p);
      if Loses(f, rank, top, n, p) {
        UnderRank(f, rank, p, top);
      }
    }
  }
}
