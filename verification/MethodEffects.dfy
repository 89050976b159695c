/**
 * What each of the five method operations leaves in the class table, read off the
 * entries and slots before and after the call: which classes get, lose or keep an
 * entry, which body it runs, and when the call is refused.  The conditions are spelled out
 * here; what is stated of an operation mentions none of the functions it is composed from.
 */
module MethodEffects {
  import opened Wrappers
  import opened Hierarchy
  import opened Coherence
  import opened MethodOps
  import opened MethodRuns
  import MethodCaches
  import MethodGuards

  /** A class lets an entry n of class s through: it has no entry n, or one that s defined. */
  predicate LetsIn(c: Class, n: Name, s: ClassId) {
    n in c.methods ==> c.methods[n].scope == s
  }

  /** The entry a lookup of n in class x finds. */
  function Entry(f: Forest, x: ClassId, n: Name): Option<Func> {
    if x in f then Find(f[x].methods, n) else None
  }

  /** Same classes, parents and kinds, and no entry but those under n changes. */
  ghost predicate TouchesOnly(f: Forest, h: Forest, n: Name) {
    && SameParents(f, h)
    && forall x: ClassId, y: Name | y != n :: Entry(h, x, y) == Entry(f, x, y)
  }

  /** The class is refused: unknown, internal or an interface, or it declares the name itself. */
  predicate Refused(f: Forest, c: ClassId, n: Name) {
    c !in f || f[c].kind != UserClass || (n in f[c].methods && f[c].methods[n].scope == c)
  }

  /** A user function the class has under the name, be it its own or inherited. */
  predicate UserEntry(f: Forest, c: ClassId, n: Name) {
    c in f && f[c].kind != InternalClass && n in f[c].methods && f[c].methods[n].user
  }

  lemma TablesTouchOnly(f: Forest, h: Forest, n: Name)
    requires SameParents(f, h) && forall x, y | x in f && y != n :: Find(h[x].methods, y) == Find(f[x].methods, y)
    ensures TouchesOnly(f, h, n)
  {
  }

  // ----- add and copy

  lemma PlaceEntry(f: Forest, rank: map<ClassId, nat>, c: ClassId, fe: Func, x: ClassId, y: Name)
    requires Ranked(f, rank) && c in f && x in f
    ensures SameParents(f, Place(f, rank, c, fe))
    ensures Find(Place(f, rank, c, fe)[x].methods, y)
            == if y == fe.name && (x == c || (Under(f, rank, x, c) && LetsIn(f[x], fe.name, c))) then Some(fe)
               else Find(f[x].methods, y)
  {
    var f1 := f[c := Drop(f[c], fe.name)];
    assert SameParents(f, f1);
    SameUnder(f, f1, rank, x, c);
    InstallTables(f1, rank, c, Change(c, fe.name, fe, None), x);
  }

  /**
   * Add goes through exactly when the class is no interface and does not declare the name.  Then the class and
   * every class below it that has no entry of the name, or one that class defined, hold the new function; no other
   * entry changes.  A refused call changes nothing.
   */
  lemma AddEntries(f: Forest, rank: map<ClassId, nat>, c: ClassId, n: Name, id: nat, body: nat)
    requires Ranked(f, rank)
    ensures var (h, ok) := AddMethod(f, rank, c, n, id, body);
            && (ok <==> !Refused(f, c, n)) && (!ok ==> h == f) && TouchesOnly(f, h, n)
            && (ok ==> forall x | x in f ::
                  Entry(h, x, n) == if x == c || (Under(f, rank, x, c) && LetsIn(f[x], n, c))
                                    then Some(Func(id, n, c, body, true)) else Entry(f, x, n))
  {
    if !Refused(f, c, n) {
      var fe := Func(id, n, c, body, true);
      forall x, y | x in f
        ensures Find(Place(f, rank, c, fe)[x].methods, y)
                == if y == n && (x == c || (Under(f, rank, x, c) && LetsIn(f[x], n, c))) then Some(fe)
                   else Find(f[x].methods, y)
      {
        PlaceEntry(f, rank, c, fe, x, y);
      }
      PlaceEntry(f, rank, c, fe, c, n);
      TablesTouchOnly(f, Place(f, rank, c, fe), n);
    }
  }

  /** Over an inherited name in a flat table only the class itself changes. */
  lemma AddOverInherited(f: Forest, rank: map<ClassId, nat>, c: ClassId, n: Name, id: nat, body: nat)
    requires Ranked(f, rank) && FlatFor(f, n) && !Refused(f, c, n) && n in f[c].methods
    ensures var (h, ok) := AddMethod(f, rank, c, n, id, body);
            && ok && SameParents(f, h) && Entry(h, c, n) == Some(Func(id, n, c, body, true))
            && forall x: ClassId, y: Name | x != c || y != n :: Entry(h, x, y) == Entry(f, x, y)
  {
    AddEntries(f, rank, c, n, id, body);
    forall x | x in f && Under(f, rank, x, c) ensures x != c && !LetsIn(f[x], n, c) {
      MethodGuards.InheritedCloses(f, rank, c, n, x);
    }
  }

  /** Onto a name the class lacks, the classes below that lack it get it too. */
  lemma AddOntoAbsent(f: Forest, rank: map<ClassId, nat>, c: ClassId, n: Name, id: nat, body: nat, x: ClassId)
    requires Ranked(f, rank) && FlatFor(f, n) && !Refused(f, c, n) && n !in f[c].methods && x in f
    ensures var (h, ok) := AddMethod(f, rank, c, n, id, body);
            ok && Entry(h, x, n) == if x == c || (Under(f, rank, x, c) && n !in f[x].methods)
                                    then Some(Func(id, n, c, body, true)) else Entry(f, x, n)
  {
    AddEntries(f, rank, c, n, id, body);
    if n in f[x].methods { ScopeAbove(f, rank, x, n); }
  }

  /** Copy is add with the body of the source's entry, and fails when the source has no such user function. */
  lemma CopyEntries(f: Forest, rank: map<ClassId, nat>, dc: ClassId, dn: Name, sc: ClassId, sn: Name, id: nat)
    requires Ranked(f, rank)
    ensures var (h, ok) := CopyMethod(f, rank, dc, dn, sc, sn, id);
            && (ok <==> UserEntry(f, sc, sn) && !Refused(f, dc, dn)) && (!ok ==> h == f) && TouchesOnly(f, h, dn)
            && (ok ==> forall x | x in f ::
                  Entry(h, x, dn) == if x == dc || (Under(f, rank, x, dc) && LetsIn(f[x], dn, dc))
                                     then Some(Func(id, dn, dc, f[sc].methods[sn].body, true)) else Entry(f, x, dn))
  {
    if UserEntry(f, sc, sn) {
      AddEntries(f, rank, dc, dn, id, f[sc].methods[sn].body);
    }
  }

  /** Over an inherited name the destination runs the source's body, and every other entry stays. */
  lemma CopyOverInherited(f: Forest, rank: map<ClassId, nat>, dc: ClassId, dn: Name, sc: ClassId, sn: Name, id: nat)
    requires Ranked(f, rank) && FlatFor(f, dn) && UserEntry(f, sc, sn) && !Refused(f, dc, dn) && dn in f[dc].methods
    ensures var (h, ok) := CopyMethod(f, rank, dc, dn, sc, sn, id);
            && ok && SameParents(f, h)
            && Entry(h, dc, dn) == Some(Func(id, dn, dc, f[sc].methods[sn].body, true))
            && forall x: ClassId, y: Name | x != dc || y != dn :: Entry(h, x, y) == Entry(f, x, y)
  {
    AddOverInherited(f, rank, dc, dn, id, f[sc].methods[sn].body);
  }

  // ----- redefine

  /** The classes below c that inherit the entry c has under n. */
  ghost predicate Heir(f: Forest, rank: map<ClassId, nat>, c: ClassId, n: Name, x: ClassId)
    requires Ranked(f, rank) && c in f && x in f
  {
    Under(f, rank, x, c) && n in f[c].methods && Entry(f, x, n) == Entry(f, c, n)
  }

  /** In a flat table they are the classes below c that let an entry of the same class through. */
  lemma HeirIff(f: Forest, rank: map<ClassId, nat>, c: ClassId, n: Name, x: ClassId)
    requires Ranked(f, rank) && FlatFor(f, n) && c in f && n in f[c].methods && x in f
    ensures Heir(f, rank, c, n, x) <==> Under(f, rank, x, c) && LetsIn(f[x], n, f[c].methods[n].scope)
  {
    if Under(f, rank, x, c) {
      if n !in f[x].methods {
        assert FlatElsewhere(f, c, n);
        NoneAbove(f, rank, c, n, x);
      } else if f[x].methods[n].scope == f[c].methods[n].scope {
        SameAsTop(f, rank, c, n, x);
      }
    }
  }

  lemma RedefineEntry(f: Forest, rank: map<ClassId, nat>, c: ClassId, n: Name, fe: Func, x: ClassId, y: Name)
    requires Ranked(f, rank) && FlatFor(f, n) && c in f && n in f[c].methods && x in f
    ensures var gone := f[c].methods[n];
            var h := Install(f, rank, c, Change(gone.scope, n, fe, Some(gone)));
            && SameParents(f, h)
            && Find(h[x].methods, y)
               == if y == n && (x == c || Heir(f, rank, c, n, x)) then Some(fe) else Find(f[x].methods, y)
  {
    var gone := f[c].methods[n];
    InstallTables(f, rank, c, Change(gone.scope, n, fe, Some(gone)), x);
    HeirIff(f, rank, c, n, x);
  }

  /**
   * Redefine goes through exactly for a user function that is not running.  Then the class and every class below
   * it that inherited the old entry hold the new function, defined by that class; no other entry changes.
   */
  lemma RedefineEntries(f: Forest, rank: map<ClassId, nat>, c: ClassId, n: Name, id: nat, body: nat,
                        active: set<nat>)
    requires Ranked(f, rank) && FlatFor(f, n)
    ensures var (h, ok) := RedefineMethod(f, rank, c, n, id, body, active);
            && (ok <==> UserEntry(f, c, n) && f[c].methods[n].id !in active) && (!ok ==> h == f)
            && TouchesOnly(f, h, n)
            && (ok ==> forall x | x in f ::
                  Entry(h, x, n) == if x == c || Heir(f, rank, c, n, x)
                                    then Some(Func(id, n, c, body, true)) else Entry(f, x, n))
  {
    if UserEntry(f, c, n) && f[c].methods[n].id !in active {
      var gone, fe := f[c].methods[n], Func(id, n, c, body, true);
      var h := Install(f, rank, c, Change(gone.scope, n, fe, Some(gone)));
      forall x, y | x in f
        ensures Find(h[x].methods, y)
                == if y == n && (x == c || Heir(f, rank, c, n, x)) then Some(fe) else Find(f[x].methods, y)
      {
        RedefineEntry(f, rank, c, n, fe, x, y);
      }
      RedefineEntry(f, rank, c, n, fe, c, n);
      TablesTouchOnly(f, h, n);
    }
  }

  // ----- remove

  lemma UninstallEntry(f: Forest, rank: map<ClassId, nat>, c: ClassId, n: Name, x: ClassId, y: Name)
    requires Ranked(f, rank) && FlatFor(f, n) && c in f && n in f[c].methods && x in f
    ensures SameParents(f, Uninstall(f, rank, c, n))
    ensures Find(Uninstall(f, rank, c, n)[x].methods, y)
            == if y == n && (x == c || Heir(f, rank, c, n, x)) then None else Find(f[x].methods, y)
  {
    UninstallShape(f, rank, c, n);
    UninstallTables(f, rank, c, n, x);
    DelMagicTable(f[x], n, f[c].methods[n]);
  }

  /**
   * Remove goes through exactly for a user function.  Then exactly the class and the classes below it that inherit
   * the entry lose the name, also where the class overrode its parent; no other entry changes.
   */
  lemma RemoveEntries(f: Forest, rank: map<ClassId, nat>, c: ClassId, n: Name)
    requires Ranked(f, rank) && FlatFor(f, n)
    ensures var (h, ok) := RemoveMethod(f, rank, c, n);
            && (ok <==> UserEntry(f, c, n)) && (!ok ==> h == f) && TouchesOnly(f, h, n)
            && (ok ==> forall x | x in f ::
                  Entry(h, x, n) == if x == c || Heir(f, rank, c, n, x) then None else Entry(f, x, n))
  {
    if UserEntry(f, c, n) {
      var h := Uninstall(f, rank, c, n);
      forall x, y | x in f
        ensures Find(h[x].methods, y)
                == if y == n && (x == c || Heir(f, rank, c, n, x)) then None else Find(f[x].methods, y)
      {
        UninstallEntry(f, rank, c, n, x, y);
      }
      UninstallEntry(f, rank, c, n, c, n);
      TablesTouchOnly(f, h, n);
    }
  }

  // ----- rename

  lemma RenameEntry(f: Forest, rank: map<ClassId, nat>, c: ClassId, n: Name, m: Name, id: nat, x: ClassId, y: Name)
    requires Ranked(f, rank) && FlatFor(f, n) && UserEntry(f, c, n) && !Own(f, c, m) && n != m && x in f
    ensures var (h, ok) := RenameMethod(f, rank, c, n, m, id);
            && ok && SameParents(f, h)
            && Find(h[x].methods, y)
               == if y == n && (x == c || Heir(f, rank, c, n, x)) then None
                  else if y == m && (x == c || (Under(f, rank, x, c) && LetsIn(f[x], m, c)))
                  then Some(Func(id, m, c, f[c].methods[n].body, true))
                  else Find(f[x].methods, y)
  {
    MethodGuards.RenameIsUninstallPlace(f, rank, c, n, m, id);
    var u := Uninstall(f, rank, c, n);
    UninstallEntry(f, rank, c, n, x, y);
    UninstallEntry(f, rank, c, n, x, m);
    SameUnder(f, u, rank, x, c);
    PlaceEntry(u, rank, c, Func(id, m, c, f[c].methods[n].body, true), x, y);
    assert Find(u[x].methods, m) == Find(f[x].methods, m);
  }

  /** What a rename leaves of class x: `gone` says whether it loses the old entry, `gets` whether it takes the new. */
  ghost predicate Renamed(f: Forest, h: Forest, x: ClassId, n: Name, m: Name, fe: Func, gone: bool, gets: bool) {
    && Entry(h, x, n) == (if gone then None else Entry(f, x, n))
    && Entry(h, x, m) == (if gets then Some(fe) else Entry(f, x, m))
    && forall y | y != n && y != m :: Entry(h, x, y) == Entry(f, x, y)
  }

  lemma RenameAt(f: Forest, rank: map<ClassId, nat>, c: ClassId, n: Name, m: Name, id: nat, x: ClassId)
    requires Ranked(f, rank) && FlatFor(f, n) && UserEntry(f, c, n) && !Own(f, c, m) && n != m && x in f
    ensures Renamed(f, RenameMethod(f, rank, c, n, m, id).0, x, n, m, Func(id, m, c, f[c].methods[n].body, true),
                    x == c || Heir(f, rank, c, n, x), x == c || (Under(f, rank, x, c) && LetsIn(f[x], m, c)))
  {
    var h := RenameMethod(f, rank, c, n, m, id).0;
    RenameEntry(f, rank, c, n, m, id, x, n);
    RenameEntry(f, rank, c, n, m, id, x, m);
    forall y | y != n && y != m ensures Entry(h, x, y) == Entry(f, x, y) {
      RenameEntry(f, rank, c, n, m, id, x, y);
    }
  }

  /**
   * Rename to another name goes through exactly for a user function whose class does not declare the new name.
   * Then the old entry goes where remove takes it from, and a function with the old body, defined by the class,
   * comes where add puts it; no other entry changes.
   */
  lemma RenameEntries(f: Forest, rank: map<ClassId, nat>, c: ClassId, n: Name, m: Name, id: nat)
    requires Ranked(f, rank) && FlatFor(f, n) && n != m
    ensures var (h, ok) := RenameMethod(f, rank, c, n, m, id);
            && (ok <==> UserEntry(f, c, n) && !(m in f[c].methods && f[c].methods[m].scope == c))
            && (!ok ==> h == f) && SameParents(f, h)
            && (ok ==> forall x | x in f ::
                  Renamed(f, h, x, n, m, Func(id, m, c, f[c].methods[n].body, true),
                          x == c || Heir(f, rank, c, n, x), x == c || (Under(f, rank, x, c) && LetsIn(f[x], m, c))))
  {
    if UserEntry(f, c, n) && !Own(f, c, m) {
      RenameEntry(f, rank, c, n, m, id, c, n);
      var h, fe := RenameMethod(f, rank, c, n, m, id).0, Func(id, m, c, f[c].methods[n].body, true);
      forall x | x in f
        ensures Renamed(f, h, x, n, m, fe, x == c || Heir(f, rank, c, n, x),
                        x == c || (Under(f, rank, x, c) && LetsIn(f[x], m, c)))
      {
        RenameAt(f, rank, c, n, m, id, x);
      }
    }
  }

  /** Renamed to its own name an inherited entry is lost as if removed, and the call fails. */
  lemma RenameToItselfRemoves(f: Forest, rank: map<ClassId, nat>, c: ClassId, n: Name, id: nat)
    requires Ranked(f, rank) && UserEntry(f, c, n)
    ensures var (h, ok) := RenameMethod(f, rank, c, n, n, id);
            !ok && h == if f[c].methods[n].scope == c then f else RemoveMethod(f, rank, c, n).0
  {
    if f[c].methods[n].scope != c {
      assert f[c].methods - {n} - {n} == f[c].methods - {n};
      assert Drop(Drop(f[c], n), n) == Drop(f[c], n);
    }
  }

  // ----- the class itself, in any table

  lemma RedefineOwn(f: Forest, rank: map<ClassId, nat>, c: ClassId, n: Name, id: nat, body: nat, active: set<nat>)
    requires Ranked(f, rank)
    ensures var (h, ok) := RedefineMethod(f, rank, c, n, id, body, active);
            && (ok <==> UserEntry(f, c, n) && f[c].methods[n].id !in active)
            && if ok then Entry(h, c, n) == Some(Func(id, n, c, body, true)) else h == f
  {
    if UserEntry(f, c, n) {
      var gone := f[c].methods[n];
      InstallTables(f, rank, c, Change(gone.scope, n, Func(id, n, c, body, true), Some(gone)), c);
    }
  }

  lemma RenameOwn(f: Forest, rank: map<ClassId, nat>, c: ClassId, n: Name, m: Name, id: nat)
    requires Ranked(f, rank)
    ensures var (h, ok) := RenameMethod(f, rank, c, n, m, id);
            && (ok <==> UserEntry(f, c, n) && !(m in f[c].methods && f[c].methods[m].scope == c) && n != m)
            && (ok ==> Entry(h, c, n) == None && Entry(h, c, m) == Some(Func(id, m, c, f[c].methods[n].body, true)))
  {
    if UserEntry(f, c, n) && !Own(f, c, m) && n != m {
      var u, fe := Uninstall(f, rank, c, n), Func(id, m, c, f[c].methods[n].body, true);
      MethodGuards.RenameIsUninstallPlace(f, rank, c, n, m, id);
      DelMagicTable(f[c], n, f[c].methods[n]);
      PlaceEntry(u, rank, c, fe, c, n);
      PlaceEntry(u, rank, c, fe, c, m);
    }
  }

  // ----- the slots of the class operated on

  /** A magic name's slot takes the function, but a constructor slot that is set stays unless it holds `over`. */
  predicate TakesSlot(c: Class, k: Magic, n: Name, over: Option<Func>) {
    n == Special(k) && (k != Constructor || k !in c.slots || Some(c.slots[k]) == over)
  }

  lemma InstallSlots(f: Forest, rank: map<ClassId, nat>, c: ClassId, ch: Change, k: Magic)
    requires Ranked(f, rank) && c in f
    ensures c in Install(f, rank, c, ch)
    ensures Find(Install(f, rank, c, ch)[c].slots, k)
            == if TakesSlot(f[c], k, ch.name, ch.orig) then Some(ch.fe) else Find(f[c].slots, k)
    ensures Install(f, rank, c, ch)[c].guards
            <==> f[c].guards || ch.name in {Special(Get), Special(Set), Special(Isset), Special(Unset)}
  {
    var g := f[c := AddMagic(Put(f[c], ch.name, ch.fe), ch.name, ch.fe, ch.orig)];
    InstallStored(f, c, ch);
    SameUnder(f, g, rank, c, c);
    NotUnderItself(g, rank, c);
  }

  lemma PlaceSlots(f: Forest, rank: map<ClassId, nat>, c: ClassId, fe: Func, k: Magic)
    requires Ranked(f, rank) && c in f
    ensures c in Place(f, rank, c, fe)
    ensures Find(Place(f, rank, c, fe)[c].slots, k)
            == if TakesSlot(f[c], k, fe.name, None) then Some(fe) else Find(f[c].slots, k)
    ensures Place(f, rank, c, fe)[c].guards
            <==> f[c].guards || fe.name in {Special(Get), Special(Set), Special(Isset), Special(Unset)}
  {
    var f1 := f[c := Drop(f[c], fe.name)];
    InstallSlots(f1, rank, c, Change(c, fe.name, fe, None), k);
  }

  /** Add and copy give the function the slot of its name, with no regard to an entry they replaced. */
  lemma AddSlots(f: Forest, rank: map<ClassId, nat>, c: ClassId, n: Name, id: nat, body: nat, k: Magic)
    requires Ranked(f, rank) && !Refused(f, c, n)
    ensures var h := AddMethod(f, rank, c, n, id, body).0;
            && c in h
            && Find(h[c].slots, k)
               == (if TakesSlot(f[c], k, n, None) then Some(Func(id, n, c, body, true)) else Find(f[c].slots, k))
            && (h[c].guards <==> f[c].guards || n in {Special(Get), Special(Set), Special(Isset), Special(Unset)})
  {
    PlaceSlots(f, rank, c, Func(id, n, c, body, true), k);
  }

  /** Redefine gives it the slot also where that holds the entry it replaces. */
  lemma RedefineSlots(f: Forest, rank: map<ClassId, nat>, c: ClassId, n: Name, id: nat, body: nat, active: set<nat>,
                      k: Magic)
    requires Ranked(f, rank) && UserEntry(f, c, n) && f[c].methods[n].id !in active
    ensures var h := RedefineMethod(f, rank, c, n, id, body, active).0;
            && c in h
            && Find(h[c].slots, k)
               == (if TakesSlot(f[c], k, n, Some(f[c].methods[n])) then Some(Func(id, n, c, body, true))
                   else Find(f[c].slots, k))
            && (h[c].guards <==> f[c].guards || n in {Special(Get), Special(Set), Special(Isset), Special(Unset)})
  {
    var gone := f[c].methods[n];
    InstallSlots(f, rank, c, Change(gone.scope, n, Func(id, n, c, body, true), Some(gone)), k);
  }

  lemma UninstallSlots(f: Forest, rank: map<ClassId, nat>, c: ClassId, n: Name, k: Magic)
    requires Ranked(f, rank) && Inv(f) && c in f && n in f[c].methods
    ensures c in Uninstall(f, rank, c, n)
    ensures Find(Uninstall(f, rank, c, n)[c].slots, k) == if n == Special(k) then None else Find(f[c].slots, k)
    ensures Uninstall(f, rank, c, n)[c].guards == f[c].guards
  {
    assert FlatFor(f, n);
    UninstallKeepsIndex(f, rank, c, n);
    UninstallEntry(f, rank, c, n, c, MagicName(k));
    assert SlotAt(Uninstall(f, rank, c, n)[c], k) && SlotAt(f[c], k);
  }

  /** Rename frees the slot of the old name, and the function takes that of the new one as add does. */
  lemma RenameSlots(f: Forest, rank: map<ClassId, nat>, c: ClassId, n: Name, m: Name, id: nat, k: Magic)
    requires Ranked(f, rank) && Inv(f) && UserEntry(f, c, n) && !Own(f, c, m) && n != m
    ensures var h := RenameMethod(f, rank, c, n, m, id).0;
            && c in h
            && Find(h[c].slots, k)
               == (if n == Special(k) then None
                   else if TakesSlot(f[c], k, m, None) then Some(Func(id, m, c, f[c].methods[n].body, true))
                   else Find(f[c].slots, k))
  {
    MethodGuards.RenameIsUninstallPlace(f, rank, c, n, m, id);
    UninstallSlots(f, rank, c, n, k);
    PlaceSlots(Uninstall(f, rank, c, n), rank, c, Func(id, m, c, f[c].methods[n].body, true), k);
  }

  // ----- the slots of subclasses, in any table

  /** The inherit chain moves at most one slot: one that holds the parent's new function above and the old one here. */
  lemma InheritMoves(c: Class, up: Slots, fe: Func, orig: Option<Func>)
    ensures var d := InheritMagic(c, up, fe, orig);
            && d.methods == c.methods
            && forall k | Find(d.slots, k) != Find(c.slots, k) ::
                 && Find(up, k) == Some(fe) && Find(c.slots, k) == orig
                 && d.slots == c.slots[k := fe]
                 && (d.guards <==> c.guards || k in {Get, Set, Isset, Unset})
  {
  }

  /** It moves one whenever there is one to move. */
  lemma InheritMovesOne(c: Class, up: Slots, fe: Func, orig: Option<Func>, k: Magic)
    requires Find(up, k) == Some(fe) && Find(c.slots, k) == orig
    ensures exists j :: Find(up, j) == Some(fe) && Find(c.slots, j) == orig
                        && Find(InheritMagic(c, up, fe, orig).slots, j) == Some(fe)
  {
    InheritedSlotComplete(k, c.slots, up, fe, orig);
    var j := InheritedSlot(c.slots, up, fe, orig).value;
    assert Find(InheritMagic(c, up, fe, orig).slots, j) == Some(fe);
  }

  /** The delete chain clears at most one slot, one that holds the function, and one whenever there is one. */
  lemma DeleteClears(c: Class, fe: Func, k: Magic)
    ensures var d := DelMagic(c, fe);
            && d.methods == c.methods && d.guards == c.guards
            && (Find(d.slots, k) != Find(c.slots, k) ==> Find(c.slots, k) == Some(fe) && d.slots == c.slots - {k})
            && (Find(c.slots, k) == Some(fe) ==> d.slots != c.slots)
  {
    if Find(c.slots, k) == Some(fe) {
      HoldingSlotComplete(k, c.slots, fe);
      var j := HoldingSlot(c.slots, fe).value;
      assert j in c.slots && j !in (c.slots - {j});
    }
  }

  // ----- clearing the caches

  /** A rename to its own name that gets as far as losing the method. */
  ghost predicate LosesItself(f: Forest, op: Op) {
    op.Rename? && op.n == op.m && UserEntry(f, op.c, op.n) && f[op.c].methods[op.n].scope != op.c
  }

  /** An operation clears the caches when it goes through, copy only over an entry; rename also to its own name. */
  lemma ClearsIff(f: Forest, rank: map<ClassId, nat>, op: Op)
    requires Ranked(f, rank)
    ensures MethodCaches.Clears(f, op)
            <==> if op.Copy? then Step(f, rank, op).1 && op.dc in f && op.dn in f[op.dc].methods
                 else Step(f, rank, op).1 || LosesItself(f, op)
  {
  }
}
