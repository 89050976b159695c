/**
 * The guards of MethodRuns are not chosen for the proof: outside them the code
 * leaves the tables inconsistent.  For each operation that goes through, this
 * module gives the exact condition, readable off the tables before the call.
 */
module MethodGuards {
  import opened Wrappers
  import opened Hierarchy
  import opened Coherence
  import opened MethodOps
  import opened MethodRuns

  /** Every direct subclass of c declares n itself. */
  ghost predicate ChildrenOwn(f: Forest, c: ClassId, n: Name) {
    forall x | x in f && f[x].parent == Some(c) :: Own(f, x, n)
  }

  // ----- add and copy

  /** The class itself after fe was placed over an inherited entry: the add chain runs as if there had been none. */
  function PlacedOver(c: Class, fe: Func): Class {
    AddMagic(Put(Drop(c, fe.name), fe.name, fe), fe.name, fe, None)
  }

  /** In a flat forest the pass that follows finds every subclass of c closed: no entry there is c's own. */
  lemma InheritedCloses(f: Forest, rank: map<ClassId, nat>, c: ClassId, n: Name, x: ClassId)
    requires Ranked(f, rank) && FlatFor(f, n) && c in f && n in f[c].methods && !Own(f, c, n)
    requires x in f && Under(f, rank, x, c)
    ensures x != c && !Open(f[x], n, c)
  {
    NotUnderItself(f, rank, c);
    if n in f[x].methods {
      ScopeAbove(f, rank, x, n);
    } else {
      assert FlatElsewhere(f, c, n);
      NoneAbove(f, rank, c, n, x);
    }
  }

  /** Placing over an inherited entry never reaches a subclass: the pass looks for the wrong ancestor. */
  lemma PlaceOverInherited(f: Forest, rank: map<ClassId, nat>, c: ClassId, fe: Func, x: ClassId)
    requires Ranked(f, rank) && FlatFor(f, fe.name) && c in f && fe.scope == c
    requires fe.name in f[c].methods && !Own(f, c, fe.name) && x in f
    ensures var h := Place(f, rank, c, fe);
            && SameParents(f, h)
            && h[x].methods == if x == c then f[c].methods[fe.name := fe] else f[x].methods
  {
    var n := fe.name;
    var f1 := f[c := Drop(f[c], n)];
    assert SameParents(f, f1);
    SameUnder(f, f1, rank, x, c);
    InstallTables(f1, rank, c, Change(c, n, fe, None), x);
    assert (f[c].methods - {n})[n := fe] == f[c].methods[n := fe];
    if Under(f, rank, x, c) { InheritedCloses(f, rank, c, n, x); }
  }

  /** Nor does it touch a slot or flag there. */
  lemma PlaceOverClass(f: Forest, rank: map<ClassId, nat>, c: ClassId, fe: Func, x: ClassId)
    requires Ranked(f, rank) && FlatFor(f, fe.name) && c in f && fe.scope == c
    requires fe.name in f[c].methods && !Own(f, c, fe.name) && x in f
    ensures Place(f, rank, c, fe).Keys == f.Keys
    ensures Place(f, rank, c, fe)[x] == if x == c then PlacedOver(f[c], fe) else f[x]
  {
    var f1 := f[c := Drop(f[c], fe.name)];
    var g := f1[c := PlacedOver(f[c], fe)];
    assert SameParents(f, f1) && SameParents(f, g);
    assert f1[c := AddMagic(Put(f1[c], fe.name, fe), fe.name, fe, None)] == g;
    SameUnder(f, g, rank, x, c);
    if Under(f, rank, x, c) {
      InheritedCloses(f, rank, c, fe.name, x);
    }
    NotUnderItself(f, rank, c);
  }

  /** For the placed name itself. */
  lemma PlaceFlatIff(f: Forest, rank: map<ClassId, nat>, c: ClassId, fe: Func)
    requires Ranked(f, rank) && FlatFor(f, fe.name) && c in f && fe.scope == c && !Own(f, c, fe.name)
    ensures FlatFor(Place(f, rank, c, fe), fe.name) <==> fe.name !in f[c].methods || ChildrenOwn(f, c, fe.name)
  {
    var n, h := fe.name, Place(f, rank, c, fe);
    if n !in f[c].methods {
      DropAbsent(f[c], n);
      assert f[c := f[c]] == f;
      var ch := Change(c, n, fe, None);
      ScopeFits(f, rank, c, ch);
      InstallKeepsFlat(f, rank, c, ch, n);
      InstallTopFlat(f, rank, c, ch, n);
      InstallTables(f, rank, c, ch, c);
      FlatFromElsewhere(h, c, n);
    } else {
      forall x | x in f
        ensures x in h && h[x].parent == f[x].parent
        ensures h[x].methods == if x == c then f[c].methods[n := fe] else f[x].methods
      {
        PlaceOverInherited(f, rank, c, fe, x);
      }
      NotUnderItself(f, rank, c);
      if ChildrenOwn(f, c, n) {
        forall x | x in h ensures FlatAt(h, x, n) {
          assert x in f && FlatAt(f, x, n);
        }
      }
      if FlatFor(h, n) {
        forall x | x in f && f[x].parent == Some(c) ensures Own(f, x, n) {
          assert FlatAt(f, x, n) && FlatAt(h, x, n);
        }
      }
    }
  }

  lemma PlaceOthers(f: Forest, rank: map<ClassId, nat>, c: ClassId, fe: Func, m: Name)
    requires Ranked(f, rank) && c in f && fe.name != m
    ensures SameFor(f, Place(f, rank, c, fe), m)
  {
    var f1, h := f[c := Drop(f[c], fe.name)], Place(f, rank, c, fe);
    assert SameParents(f, f1);
    SameUnder(f, f1, rank, c, c);
    forall x | x in f ensures SameParents(f1, h) && Find(f[x].methods, m) == Find(h[x].methods, m) {
      InstallTables(f1, rank, c, Change(c, fe.name, fe, None), x);
    }
    assert SameParents(f1, h) by { InstallTables(f1, rank, c, Change(c, fe.name, fe, None), c); }
  }

  lemma SameForFlat(f: Forest, h: Forest, n: Name)
    requires SameFor(f, h, n)
    ensures FlatFor(f, n) == FlatFor(h, n)
  {
    forall c | c in f ensures FlatAt(f, c, n) == FlatAt(h, c, n) {
      SameForFlatAt(f, h, c, n);
    }
  }

  /** Flatness after an operation that touches n and m only is decided by n and m. */
  lemma FlatByTwoNames(f: Forest, h: Forest, n: Name, m: Name)
    requires Flat(f) && forall y | y != n && y != m :: SameFor(f, h, y)
    ensures Flat(h) <==> FlatFor(h, n) && FlatFor(h, m)
  {
    forall y | y != n && y != m ensures FlatFor(h, y) {
      assert SameFor(f, h, y) && FlatFor(f, y);
      SameForFlat(f, h, y);
    }
    if FlatFor(h, n) && FlatFor(h, m) {
      forall y ensures FlatFor(h, y) {
        assert y != n && y != m ==> FlatFor(h, y);
      }
    }
  }

  lemma PlaceKeepsFlatIff(f: Forest, rank: map<ClassId, nat>, c: ClassId, fe: Func)
    requires Ranked(f, rank) && Flat(f) && c in f && fe.scope == c && !Own(f, c, fe.name)
    ensures Flat(Place(f, rank, c, fe)) <==> fe.name !in f[c].methods || ChildrenOwn(f, c, fe.name)
  {
    var n := fe.name;
    assert FlatFor(f, n);
    PlaceFlatIff(f, rank, c, fe);
    forall y | y != n ensures SameFor(f, Place(f, rank, c, fe), y) {
      PlaceOthers(f, rank, c, fe, y);
    }
    FlatByTwoNames(f, Place(f, rank, c, fe), n, n);
  }

  /** Add keeps the tables flat exactly when the class had no such entry or all its direct subclasses override it. */
  lemma AddKeepsFlatIff(f: Forest, rank: map<ClassId, nat>, c: ClassId, n: Name, id: nat, body: nat)
    requires Ranked(f, rank) && Inv(f) && Modifiable(f, c) && !Own(f, c, n)
    ensures Flat(AddMethod(f, rank, c, n, id, body).0) <==> n !in f[c].methods || ChildrenOwn(f, c, n)
  {
    PlaceKeepsFlatIff(f, rank, c, Func(id, n, c, body, true));
  }

  /** The same condition on the destination decides copy. */
  lemma CopyKeepsFlatIff(f: Forest, rank: map<ClassId, nat>, dc: ClassId, dn: Name, sc: ClassId, sn: Name, id: nat)
    requires Ranked(f, rank) && Inv(f) && HasUserMethod(f, sc, sn) && Modifiable(f, dc) && !Own(f, dc, dn)
    ensures Flat(CopyMethod(f, rank, dc, dn, sc, sn, id).0) <==> dn !in f[dc].methods || ChildrenOwn(f, dc, dn)
  {
    AddKeepsFlatIff(f, rank, dc, dn, id, f[sc].methods[sn].body);
  }

  // ----- slots: a constructor slot stays on the function it held

  lemma PlacedOverIndexedIff(c: Class, fe: Func)
    requires (forall j :: SlotAt(c, j)) && fe.name in c.methods && c.methods[fe.name] != fe
    ensures (forall j :: SlotAt(PlacedOver(c, fe), j)) <==> fe.name != Special(Constructor)
  {
    var d := PlacedOver(c, fe);
    forall j | fe.name != Special(Constructor) ensures SlotAt(d, j) {
      assert SlotAt(c, j);
    }
    if fe.name == Special(Constructor) {
      assert SlotAt(c, Constructor) && !SlotAt(d, Constructor);
    }
  }

  lemma PlaceIndexedIff(f: Forest, rank: map<ClassId, nat>, c: ClassId, fe: Func)
    requires Ranked(f, rank) && Inv(f) && c in f && fe.scope == c && !Own(f, c, fe.name)
    ensures Indexed(Place(f, rank, c, fe)) <==> fe.name !in f[c].methods || fe.name != Special(Constructor)
  {
    var n, h := fe.name, Place(f, rank, c, fe);
    assert FlatFor(f, n);
    if n !in f[c].methods {
      DropAbsent(f[c], n);
      assert f[c := f[c]] == f;
      ScopeFits(f, rank, c, Change(c, n, fe, None));
      InstallKeepsIndexed(f, rank, c, Change(c, n, fe, None));
    } else {
      assert forall j :: SlotAt(f[c], j);
      PlacedOverIndexedIff(f[c], fe);
      PlaceOverClass(f, rank, c, fe, c);
      PlaceOverInherited(f, rank, c, fe, c);
      forall x | x in f && x != c ensures h[x] == f[x] {
        PlaceOverClass(f, rank, c, fe, x);
      }
      forall x, k | x in f && x != c ensures SlotAt(h[x], k) && GuardedSlot(h[x], k) {
        assert SlotAt(f[x], k) && GuardedSlot(f[x], k);
      }
      forall k ensures GuardedSlot(h[c], k) { assert GuardedSlot(f[c], k); }
      PlacedNames(f, h, c, fe);
    }
  }

  lemma PlacedNames(f: Forest, h: Forest, c: ClassId, fe: Func)
    requires NamesMatch(f) && c in f && c in h && h.Keys == f.Keys && h[c].methods == f[c].methods[fe.name := fe]
    requires forall x | x in f && x != c :: h[x] == f[x]
    ensures NamesMatch(h)
  {
  }

  /** Whether add, copy and rename may put a method called n into c. */
  ghost predicate Placeable(f: Forest, c: ClassId, n: Name)
    requires c in f
  {
    n !in f[c].methods || (ChildrenOwn(f, c, n) && n != Special(Constructor))
  }

  lemma PlaceKeepsInvIff(f: Forest, rank: map<ClassId, nat>, c: ClassId, fe: Func)
    requires Ranked(f, rank) && Inv(f) && c in f && fe.scope == c && !Own(f, c, fe.name)
    ensures Inv(Place(f, rank, c, fe)) <==> Placeable(f, c, fe.name)
  {
    PlaceKeepsFlatIff(f, rank, c, fe);
    PlaceIndexedIff(f, rank, c, fe);
  }

  /** Add keeps flat tables and exact slots exactly when the name is placeable; a constructor never is over another. */
  lemma AddKeepsInvIff(f: Forest, rank: map<ClassId, nat>, c: ClassId, n: Name, id: nat, body: nat)
    requires Ranked(f, rank) && Inv(f) && Modifiable(f, c) && !Own(f, c, n)
    ensures Inv(AddMethod(f, rank, c, n, id, body).0) <==> Placeable(f, c, n)
  {
    PlaceKeepsInvIff(f, rank, c, Func(id, n, c, body, true));
  }

  lemma CopyKeepsInvIff(f: Forest, rank: map<ClassId, nat>, dc: ClassId, dn: Name, sc: ClassId, sn: Name, id: nat)
    requires Ranked(f, rank) && Inv(f) && HasUserMethod(f, sc, sn) && Modifiable(f, dc) && !Own(f, dc, dn)
    ensures Inv(CopyMethod(f, rank, dc, dn, sc, sn, id).0) <==> Placeable(f, dc, dn)
  {
    AddKeepsInvIff(f, rank, dc, dn, id, f[sc].methods[sn].body);
  }

  // ----- remove and rename

  /** Remove keeps the tables flat exactly when the parent does not offer the name; slots stay exact in any case. */
  lemma RemoveKeepsFlatIff(f: Forest, rank: map<ClassId, nat>, c: ClassId, n: Name)
    requires Ranked(f, rank) && Inv(f) && HasUserMethod(f, c, n)
    ensures Flat(RemoveMethod(f, rank, c, n).0) <==> Inherited(f, c, n).None?
    ensures Indexed(RemoveMethod(f, rank, c, n).0)
  {
    UninstallKeepsIndex(f, rank, c, n);
    assert FlatFor(f, n);
    UninstallTopIff(f, rank, c, n);
    if Inherited(f, c, n).None? {
      UninstallKeepsInv(f, rank, c, n);
    } else {
      assert !FlatFor(Uninstall(f, rank, c, n), n);
    }
  }

  /** Rename does what remove does for the old name and then what add does for the new one. */
  lemma RenameIsUninstallPlace(f: Forest, rank: map<ClassId, nat>, c: ClassId, n: Name, m: Name, id: nat)
    requires Ranked(f, rank) && HasUserMethod(f, c, n) && !Own(f, c, m) && n != m
    ensures var u := Uninstall(f, rank, c, n);
            && Ranked(u, rank) && c in u
            && RenameMethod(f, rank, c, n, m, id)
              == (Place(u, rank, c, Func(id, m, c, f[c].methods[n].body, true)), true)
  {
    UninstallShape(f, rank, c, n);
    BaseIsUninstallDrop(f, rank, c, n, m);
  }

  lemma BaseIsUninstallDrop(f: Forest, rank: map<ClassId, nat>, c: ClassId, n: Name, m: Name)
    requires Ranked(f, rank) && c in f && n in f[c].methods
    ensures var fe, u := f[c].methods[n], Uninstall(f, rank, c, n);
            c in u && RenameBase(f, rank, c, n, m, fe) == u[c := Drop(u[c], m)]
  {
    var fe := f[c].methods[n];
    DropBeforeDelMagic(f[c], n, m, fe);
  }

  lemma DropBeforeDelMagic(c: Class, n: Name, m: Name, fe: Func)
    ensures DelMagic(Drop(Drop(c, m), n), fe) == Drop(DelMagic(Drop(c, n), fe), m)
  {
    assert c.methods - {m} - {n} == c.methods - {n} - {m};
  }

  /** What decides about the new name is the same before and after the old one was removed. */
  lemma UninstallKeepsOther(f: Forest, rank: map<ClassId, nat>, c: ClassId, n: Name, m: Name)
    requires Ranked(f, rank) && FlatFor(f, n) && c in f && n in f[c].methods && m != n
    ensures var u := Uninstall(f, rank, c, n);
            && c in u && (m in u[c].methods <==> m in f[c].methods)
            && (Own(u, c, m) <==> Own(f, c, m)) && (ChildrenOwn(u, c, m) <==> ChildrenOwn(f, c, m))
  {
    var u := Uninstall(f, rank, c, n);
    UninstallOthers(f, rank, c, n, m);
    forall x | x in f ensures Own(u, x, m) <==> Own(f, x, m) {
      assert Find(u[x].methods, m) == Find(f[x].methods, m);
    }
    assert Find(u[c].methods, m) == Find(f[c].methods, m);
  }

  /**
   * Rename keeps the tables flat exactly when both conditions hold: the parent does not
   * offer the old name, and the new name is unknown to the class or overridden by every
   * direct subclass.  Renaming a method to its own name never meets the first.
   */
  lemma RenameKeepsFlatIff(f: Forest, rank: map<ClassId, nat>, c: ClassId, n: Name, m: Name, id: nat)
    requires Ranked(f, rank) && Inv(f) && HasUserMethod(f, c, n) && !Own(f, c, m)
    ensures Flat(RenameMethod(f, rank, c, n, m, id).0)
            <==> Inherited(f, c, n).None? && (m !in f[c].methods || ChildrenOwn(f, c, m))
  {
    var h := RenameMethod(f, rank, c, n, m, id).0;
    assert FlatFor(f, n) && FlatFor(f, m);
    if n == m {
      RenameToItself(f, rank, c, n, id);
    } else {
      var fe, u := Func(id, m, c, f[c].methods[n].body, true), Uninstall(f, rank, c, n);
      RenameIsUninstallPlace(f, rank, c, n, m, id);
      UninstallKeepsOther(f, rank, c, n, m);
      if Inherited(f, c, n).None? {
        UninstallKeepsInv(f, rank, c, n);
        PlaceKeepsFlatIff(u, rank, c, fe);
      } else {
        UninstallTopIff(f, rank, c, n);
        PlaceOthers(u, rank, c, fe, n);
        SameForFlat(u, h, n);
        assert !FlatFor(u, n) && !FlatFor(h, n);
      }
    }
  }

  /** Everything but flatness survives a rename exactly under add's condition on the new name. */
  lemma RenameKeepsInvIff(f: Forest, rank: map<ClassId, nat>, c: ClassId, n: Name, m: Name, id: nat)
    requires Ranked(f, rank) && Inv(f) && HasUserMethod(f, c, n) && !Own(f, c, m)
    ensures Inv(RenameMethod(f, rank, c, n, m, id).0)
            <==> Inherited(f, c, n).None? && Placeable(f, c, m)
  {
    RenameKeepsFlatIff(f, rank, c, n, m, id);
    assert FlatFor(f, n);
    if n == m {
      RenameToItself(f, rank, c, n, id);
    } else if Inherited(f, c, n).None? {
      RenameIsUninstallPlace(f, rank, c, n, m, id);
      UninstallKeepsOther(f, rank, c, n, m);
      UninstallKeepsInv(f, rank, c, n);
      var u, fe := Uninstall(f, rank, c, n), Func(id, m, c, f[c].methods[n].body, true);
      PlaceKeepsInvIff(u, rank, c, fe);
      assert RenameMethod(f, rank, c, n, m, id).0 == Place(u, rank, c, fe);
      assert Placeable(u, c, m) <==> Placeable(f, c, m);
    }
  }

  lemma RenameToItself(f: Forest, rank: map<ClassId, nat>, c: ClassId, n: Name, id: nat)
    requires Ranked(f, rank) && FlatFor(f, n) && HasUserMethod(f, c, n) && !Own(f, c, n)
    ensures Inherited(f, c, n).Some? && !FlatFor(RenameMethod(f, rank, c, n, n, id).0, n)
  {
    var fe := f[c].methods[n];
    var h := RenameMethod(f, rank, c, n, n, id).0;
    assert FlatAt(f, c, n);
    var p := f[c].parent.value;
    if Cleaned(f, rank, c, fe.scope, n, p) {
      CleanedUnder(f, rank, c, fe.scope, n, p);
      UnderRank(f, rank, p, c);
    }
    assert !FlatAt(h, c, n);
  }

  // ----- a concrete failure

  /** Base declares m, Mid and Leaf inherit it. */
  const BASE: ClassId := 0
  const MID: ClassId := 1
  const LEAF: ClassId := 2
  const M := Plain(0)
  const INHERITED_M := Func(0, M, BASE, 7, true)
  const HEIR := Class(UserClass, Some(BASE), map[M := INHERITED_M], map[], false, map[])
  const CHAIN: Forest := map[
    BASE := Class(UserClass, None, map[M := INHERITED_M], map[], false, map[]),
    MID := HEIR,
    LEAF := HEIR.(parent := Some(MID))]
  const CHAIN_RANK: map<ClassId, nat> := map[BASE := 0, MID := 1, LEAF := 2]

  lemma PlainNamesOnly(f: Forest)
    requires forall c | c in f :: f[c].slots == map[] && exists fe: Func :: fe.name == M && f[c].methods == map[M := fe]
    ensures Indexed(f)
  {
    forall c, k | c in f ensures SlotAt(f[c], k) { assert MagicName(k) != M; }
  }

  lemma ChainFlat(n: Name)
    ensures FlatFor(CHAIN, n)
  {
    assert FlatAt(CHAIN, BASE, n) && FlatAt(CHAIN, MID, n) && FlatAt(CHAIN, LEAF, n);
  }

  lemma ChainCoherent()
    ensures Ranked(CHAIN, CHAIN_RANK) && Inv(CHAIN)
  {
    PlainNamesOnly(CHAIN);
    forall n ensures FlatFor(CHAIN, n) { ChainFlat(n); }
  }

  /** Adding m to Mid leaves Leaf calling Base's m although Mid now declares it. */
  lemma AddOverInheritedGoesStale(id: nat, body: nat)
    ensures Ranked(CHAIN, CHAIN_RANK)
    ensures var (h, ok) := AddMethod(CHAIN, CHAIN_RANK, MID, M, id, body);
            && ok && Ranked(h, CHAIN_RANK)
            && Find(h[LEAF].methods, M) == Some(INHERITED_M)
            && NearestDefiner(h, CHAIN_RANK, LEAF, M) == Some(Func(id, M, MID, body, true))
  {
    ChainCoherent();
    assert FlatFor(CHAIN, M);
    var fe := Func(id, M, MID, body, true);
    PlaceOverInherited(CHAIN, CHAIN_RANK, MID, fe, LEAF);
    PlaceOverInherited(CHAIN, CHAIN_RANK, MID, fe, MID);
    var h := Place(CHAIN, CHAIN_RANK, MID, fe);
    assert SameParents(CHAIN, h);
    assert NearestDefiner(h, CHAIN_RANK, MID, M) == Some(fe);
    assert h[LEAF].parent == Some(MID);
  }

  /** The same classes where Leaf declares its own m. */
  const LEAF_M := Func(1, M, LEAF, 8, true)
  const OVERRIDDEN: Forest := CHAIN[LEAF := CHAIN[LEAF].(methods := map[M := LEAF_M])]

  lemma OverriddenFlat(n: Name)
    ensures FlatFor(OVERRIDDEN, n)
  {
    assert FlatAt(OVERRIDDEN, BASE, n) && FlatAt(OVERRIDDEN, MID, n) && FlatAt(OVERRIDDEN, LEAF, n);
  }

  lemma OverriddenCoherent()
    ensures Ranked(OVERRIDDEN, CHAIN_RANK) && Inv(OVERRIDDEN)
  {
    PlainNamesOnly(OVERRIDDEN);
    forall n ensures FlatFor(OVERRIDDEN, n) { OverriddenFlat(n); }
  }

  /** Removing Leaf's m, which Mid offers too, leaves Leaf without m although it should inherit one. */
  lemma RemoveLeavesHole()
    ensures Ranked(OVERRIDDEN, CHAIN_RANK) && Inv(OVERRIDDEN) && HasUserMethod(OVERRIDDEN, LEAF, M)
    ensures Inherited(OVERRIDDEN, LEAF, M) == Some(INHERITED_M)
    ensures var h := RemoveMethod(OVERRIDDEN, CHAIN_RANK, LEAF, M).0;
            LEAF in h && M !in h[LEAF].methods && h[LEAF].parent == Some(MID)
  {
    OverriddenCoherent();
    DelMagicTable(OVERRIDDEN[LEAF], M, LEAF_M);
  }

  /** Base declares a constructor, and Mid, a class without subclasses, inherits it. */
  const CTOR := Func(0, Special(Constructor), BASE, 7, true)
  const BUILT := Class(UserClass, None, map[Special(Constructor) := CTOR], map[Constructor := CTOR], false, map[])
  const BUILT_PAIR: Forest := map[BASE := BUILT, MID := BUILT.(parent := Some(BASE))]
  const PAIR_RANK: map<ClassId, nat> := map[BASE := 0, MID := 1]

  lemma PairCoherent()
    ensures Ranked(BUILT_PAIR, PAIR_RANK) && Inv(BUILT_PAIR)
  {
    forall c, k | c in BUILT_PAIR ensures SlotAt(BUILT_PAIR[c], k) {
      assert MagicName(k) == Special(Constructor) <==> k == Constructor;
    }
    forall n ensures FlatFor(BUILT_PAIR, n) { assert FlatAt(BUILT_PAIR, BASE, n) && FlatAt(BUILT_PAIR, MID, n); }
  }

  /** A constructor added to Mid is in its table, but its slot, which new uses, stays on Base's constructor. */
  lemma ConstructorSlotGoesStale(id: nat, body: nat)
    ensures Ranked(BUILT_PAIR, PAIR_RANK) && Inv(BUILT_PAIR)
    ensures var (h, ok) := AddMethod(BUILT_PAIR, PAIR_RANK, MID, Special(Constructor), id, body);
            && ok && MID in h
            && Find(h[MID].methods, Special(Constructor)) == Some(Func(id, Special(Constructor), MID, body, true))
            && Find(h[MID].slots, Constructor) == Some(CTOR)
  {
    PairCoherent();
    assert FlatFor(BUILT_PAIR, Special(Constructor));
    PlaceOverClass(BUILT_PAIR, PAIR_RANK, MID, Func(id, Special(Constructor), MID, body, true), MID);
  }
}
