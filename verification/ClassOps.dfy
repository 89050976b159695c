/** runkit7_class_adopt and runkit7_class_emancipate, the method-table halves. */
module ClassOps {
  import opened Wrappers
  import H = Hierarchy
  import opened Coherence
  import opened MethodOps
  import opened MethodRuns
  import opened Adoption
  import opened Sweeps
  import opened MethodTables

  /** php_runkit_inherit_methods */
  method InheritMethod(e: Engine, fe: H.Func, ce: ClassEntry, ghost rank: map<H.ClassId, nat>)
    requires e.Valid() && e.Holds(ce) && ce.parent != null
    requires fe.name !in ce.methods ==> H.Ranked(e.View(), rank)
    requires fe.name in ce.parent.methods && fe == ce.parent.methods[fe.name]
    modifies e.classTable.Values`methods, e.classTable.Values`slots, e.classTable.Values`guards
    ensures var f := old(e.View());
            && e.Valid() && ce.name in f && f[ce.name].parent == Some(ce.parent.name) && ce.parent.name in f
            && fe.name in f[ce.parent.name].methods
            && (fe.name in f[ce.name].methods ==> e.View() == f)
            && (H.Ranked(f, rank) ==> e.View() == AdoptName(f, rank, ce.name, fe.name))
  {
    assert e.View()[ce.parent.name] == ce.parent.State();
    assert e.View()[ce.name] == ce.State();
    if fe.name in ce.methods {
      return;
    }
    e.InstallIn(ce, H.Change(fe.scope, fe.name, fe, None), rank);
  }

  /**
   * runkit7_class_adopt on classes without properties.  A parent that is the class or below it closes a cycle
   * (Adoption.AcyclicIff); the call then ends only if there is nothing to inherit (Adoption.CycleChains).
   */
  method ClassAdopt(e: Engine, classname: H.ClassId, parentname: H.ClassId, ghost rank: map<H.ClassId, nat>)
    returns (ok: bool)
    requires e.Valid() && Inv(e.View()) && DRanked(DeclOf(e.View()), rank)
    requires CanAdopt(e.View(), classname, parentname) && Closes(DeclOf(e.View()), rank, classname, parentname) ==>
               HasAll(e.View(), classname, parentname)
    modifies e.classTable.Values
    ensures e.Valid() && ok == CanAdopt(old(e.View()), classname, parentname)
    ensures ok <==> && classname in old(e.View()) && old(e.View())[classname].kind == H.UserClass
                    && old(e.View())[classname].parent == None
                    && parentname in old(e.View()) && old(e.View())[parentname].kind == H.UserClass
    ensures !ok ==> e.View() == old(e.View())
    ensures ok && !Closes(DeclOf(old(e.View())), rank, classname, parentname) ==>
              var up := AdoptRank(DeclOf(old(e.View())), rank, classname, parentname);
              && Adopts(old(e.View()), up, classname, parentname, e.View())
              && Adopted(old(e.View()), e.View(), up, classname, parentname)
    ensures ok && Closes(DeclOf(old(e.View())), rank, classname, parentname) ==>
              e.View() == WithParent(old(e.View()), classname, parentname)
  {
    var ce := e.FetchClass(classname);
    if ce == null || ce.parent != null {
      return false;
    }
    var parent := e.FetchClass(parentname);
    if parent == null {
      return false;
    }
    AdoptInto(e, ce, parent, rank);
    return true;
  }

  method AdoptInto(e: Engine, ce: ClassEntry, parent: ClassEntry, ghost rank: map<H.ClassId, nat>)
    requires e.Valid() && e.Holds(ce) && e.Holds(parent) && ce.parent == null && Inv(e.View())
    requires ce.name in e.View() && parent.name in e.View() && DRanked(DeclOf(e.View()), rank)
    requires Closes(DeclOf(e.View()), rank, ce.name, parent.name) ==> HasAll(e.View(), ce.name, parent.name)
    modifies e.classTable.Values
    ensures e.Valid()
    ensures !Closes(DeclOf(old(e.View())), rank, ce.name, parent.name) ==>
              var up := AdoptRank(DeclOf(old(e.View())), rank, ce.name, parent.name);
              && Adopts(old(e.View()), up, ce.name, parent.name, e.View())
              && Adopted(old(e.View()), e.View(), up, ce.name, parent.name)
    ensures Closes(DeclOf(old(e.View())), rank, ce.name, parent.name) ==>
              e.View() == WithParent(old(e.View()), ce.name, parent.name)
  {
    ghost var f, up := e.View(), AdoptRank(DeclOf(e.View()), rank, ce.name, parent.name);
    ghost var closes := Closes(DeclOf(f), rank, ce.name, parent.name);
    e.StateOf(ce);
    e.StateOf(parent);
    if !closes {
      LinkRanked(f, rank, ce.name, parent.name);
      AdoptLoopStarts(f, up, ce.name, parent.name);
    }
    SetParent(e, ce, parent);
    InheritAll(e, ce, parent, f, up, closes);
    if !closes { AdoptsAdopted(f, up, ce.name, parent.name, e.View()); }
  }

  lemma LinkRanked(f: H.Forest, rank: map<H.ClassId, nat>, c: H.ClassId, p: H.ClassId)
    requires DRanked(DeclOf(f), rank) && c in f && p in f && f[c].parent.None?
    requires p != c && !Descends(DeclOf(f), rank, p, c) && Inv(f)
    ensures H.Ranked(WithParent(f, c, p), AdoptRank(DeclOf(f), rank, c, p))
  {
    AdoptRanked(DeclOf(f), rank, c, p);
    ReparentIndexed(f, c, Some(p));
    RankedDeclared(WithParent(f, c, p), AdoptRank(DeclOf(f), rank, c, p));
  }

  method SetParent(e: Engine, ce: ClassEntry, parent: ClassEntry?)
    requires e.Valid() && e.Holds(ce) && (parent != null ==> e.Holds(parent))
    modifies ce`parent
    ensures e.Valid() && ce.parent == parent
    ensures e.View() == old(e.View())[ce.name :=
              old(e.View())[ce.name].(parent := if parent == null then None else Some(parent.name))]
  {
    ce.parent := parent;
  }

  /** Where the inherit loop stands: nothing to do on a cycle, else some names settled. */
  ghost predicate Inheriting(f: H.Forest, view: H.Forest, rank: map<H.ClassId, nat>, c: H.ClassId, p: H.ClassId,
                             done: set<H.Name>, names: seq<H.Name>, closes: bool)
    requires c in f && p in f && c in DeclOf(f)
  {
    if closes then view == WithParent(f, c, p) && HasAll(f, c, p)
    else
      && AdoptLoop(view, rank, c, p, Reparent(DeclOf(f), c, Some(p)), f[p].methods, done)
      && Lists(names, done) && Inherits(WithParent(f, c, p), rank, c, names, view)
  }

  lemma InheritingNext(f: H.Forest, view: H.Forest, rank: map<H.ClassId, nat>, c: H.ClassId, p: H.ClassId,
                       done: set<H.Name>, names: seq<H.Name>, closes: bool, n: H.Name)
    requires c in f && p in f && c in DeclOf(f) && Inheriting(f, view, rank, c, p, done, names, closes)
    requires n in f[p].methods && n !in done
    ensures c in view && p in view && view[p].methods == f[p].methods && view[c].parent == Some(p)
    ensures closes ==> n in view[c].methods
    ensures !closes ==>
              && CanInherit(view, rank, c, n)
              && Inheriting(f, AdoptName(view, rank, c, n), rank, c, p, done + {n}, names + [n], false)
  {
    if !closes {
      AdoptLoopStep(view, rank, c, p, Reparent(DeclOf(f), c, Some(p)), f[p].methods, done, n);
      InheritsMore(WithParent(f, c, p), rank, c, names, view, n);
      ListsMore(names, done, n);
    }
  }

  /** php_runkit_inherit_methods_foreach; f is the table before the parent link was set. */
  method InheritAll(e: Engine, ce: ClassEntry, parent: ClassEntry, ghost f: H.Forest, ghost rank: map<H.ClassId, nat>,
                    ghost closes: bool)
    requires e.Valid() && e.Holds(ce) && e.Holds(parent) && ce.parent == parent && Inv(f)
    requires ce.name in DeclOf(f) && parent.name in f && e.View() == WithParent(f, ce.name, parent.name)
    requires Inheriting(f, e.View(), rank, ce.name, parent.name, {}, [], closes)
    modifies e.classTable.Values`methods, e.classTable.Values`slots, e.classTable.Values`guards
    ensures e.Valid()
    ensures if closes then e.View() == old(e.View()) else Adopts(f, rank, ce.name, parent.name, e.View())
  {
    ghost var c, p, keys := ce.name, parent.name, f[parent.name].methods.Keys;
    e.StateOf(parent);
    var todo := parent.methods.Keys;
    ghost var done: set<H.Name>, names: seq<H.Name> := {}, [];
    SplitEnds(keys, todo, done);
    while todo != {}
      invariant e.Valid() && Split(keys, todo, done)
      invariant Inheriting(f, e.View(), rank, c, p, done, names, closes)
    {
      var n :| n in todo;
      SplitStep(keys, todo, done, n);
      InheritNext(e, ce, parent, n, f, rank, done, names, closes);
      todo, done, names := todo - {n}, done + {n}, names + [n];
    }
    SplitEnds(keys, todo, done);
  }

  method InheritNext(e: Engine, ce: ClassEntry, parent: ClassEntry, n: H.Name, ghost f: H.Forest,
                     ghost rank: map<H.ClassId, nat>, ghost done: set<H.Name>, ghost names: seq<H.Name>,
                     ghost closes: bool)
    requires e.Valid() && e.Holds(ce) && e.Holds(parent) && ce.parent == parent && Inv(f)
    requires ce.name in f && ce.name in DeclOf(f) && parent.name in f && n in f[parent.name].methods && n !in done
    requires Inheriting(f, e.View(), rank, ce.name, parent.name, done, names, closes)
    modifies e.classTable.Values`methods, e.classTable.Values`slots, e.classTable.Values`guards
    ensures e.Valid() && Inheriting(f, e.View(), rank, ce.name, parent.name, done + {n}, names + [n], closes)
  {
    InheritingNext(f, e.View(), rank, ce.name, parent.name, done, names, closes, n);
    e.StateOf(parent);
    e.StateOf(ce);
    assert f[parent.name].methods[n].name == n;
    InheritMethod(e, parent.methods[n], ce, rank);
  }

  /** php_runkit_remove_inherited_methods */
  method RemoveInherited(e: Engine, n: H.Name, ce: ClassEntry, ghost rank: map<H.ClassId, nat>)
    requires e.Valid() && e.Holds(ce) && n in ce.methods && ce.methods[n].name == n
    requires ce.methods[n].scope != ce.name ==> H.Ranked(e.View(), rank)
    modifies e.classTable.Values`methods, e.classTable.Values`slots
    ensures e.Valid() && ce.name in old(e.View()) && n in old(e.View())[ce.name].methods
    ensures Own(old(e.View()), ce.name, n) ==> e.View() == old(e.View())
    ensures H.Ranked(old(e.View()), rank) ==> e.View() == FreeName(old(e.View()), rank, ce.name, n)
  {
    assert e.View()[ce.name] == ce.State();
    if ce.methods[n].scope == ce.name {
      return;
    }
    e.UninstallIn(ce, n, ce.methods[n], rank);
  }

  /** Where the removal loop stands: nothing to do where every entry is the class's own, else some names handled. */
  ghost predicate Freeing(f: H.Forest, view: H.Forest, rank: map<H.ClassId, nat>, c: H.ClassId, done: set<H.Name>,
                          names: seq<H.Name>, own: bool)
    requires c in f
  {
    && Lists(names, done)
    && if own then view == f && OwnOnly(f, c)
       else FreeLoop(view, rank, c, DeclOf(f), f[c].methods.Keys, done) && Frees(f, rank, c, names, view)
  }

  lemma FreeingNext(f: H.Forest, view: H.Forest, rank: map<H.ClassId, nat>, c: H.ClassId, done: set<H.Name>,
                    names: seq<H.Name>, own: bool, n: H.Name)
    requires c in f && Freeing(f, view, rank, c, done, names, own) && n in f[c].methods && n !in done
    ensures c in view && n in view[c].methods && view[c].methods[n].name == n
    ensures own ==> Own(view, c, n) && Freeing(f, view, rank, c, done + {n}, names + [n], true)
    ensures !own ==> CanFree(view, rank, c, n)
                     && Freeing(f, FreeName(view, rank, c, n), rank, c, done + {n}, names + [n], false)
  {
    ListsMore(names, done, n);
    if !own {
      FreeLoopStep(view, rank, c, DeclOf(f), f[c].methods.Keys, done, n);
      FreesMore(f, rank, c, names, view, n);
    }
  }

  /** php_runkit_remove_inherited_methods_foreach */
  method RemoveAllInherited(e: Engine, ce: ClassEntry, ghost rank: map<H.ClassId, nat>, ghost own: bool)
    returns (ghost names: seq<H.Name>)
    requires e.Valid() && e.Holds(ce) && ce.name in e.View()
    requires if own then OwnOnly(e.View(), ce.name) else H.Ranked(e.View(), rank) && Inv(e.View())
    modifies e.classTable.Values`methods, e.classTable.Values`slots
    ensures e.Valid() && ce.name in old(e.View()) && Lists(names, old(e.View())[ce.name].methods.Keys)
    ensures ce.name in e.View()
    ensures if own then e.View() == old(e.View()) else Frees(old(e.View()), rank, ce.name, names, e.View())
  {
    ghost var f, c, keys := e.View(), ce.name, e.View()[ce.name].methods.Keys;
    e.StateOf(ce);
    var todo := ce.methods.Keys;
    ghost var done: set<H.Name> := {};
    names := [];
    SplitEnds(keys, todo, done);
    while todo != {}
      invariant e.Valid() && Split(keys, todo, done)
      invariant Freeing(f, e.View(), rank, c, done, names, own)
    {
      var n :| n in todo;
      SplitStep(keys, todo, done, n);
      FreeingNext(f, e.View(), rank, c, done, names, own, n);
      FreeNext(e, ce, n, rank);
      todo, done, names := todo - {n}, done + {n}, names + [n];
    }
    SplitEnds(keys, todo, done);
  }

  method FreeNext(e: Engine, ce: ClassEntry, n: H.Name, ghost rank: map<H.ClassId, nat>)
    requires e.Valid() && e.Holds(ce) && ce.name in e.View()
    requires n in e.View()[ce.name].methods && e.View()[ce.name].methods[n].name == n
    requires Own(e.View(), ce.name, n) || H.Ranked(e.View(), rank)
    modifies e.classTable.Values`methods, e.classTable.Values`slots
    ensures e.Valid() && ce.name in old(e.View()) && n in old(e.View())[ce.name].methods
    ensures Own(old(e.View()), ce.name, n) ==> e.View() == old(e.View())
    ensures H.Ranked(old(e.View()), rank) ==> e.View() == FreeName(old(e.View()), rank, ce.name, n)
  {
    e.StateOf(ce);
    RemoveInherited(e, n, ce, rank);
  }

  /**
   * runkit7_class_emancipate on classes whose parents have no properties.  On a cyclic hierarchy nothing is
   * promised unless all entries are the class's own, when no pass is started.
   */
  method ClassEmancipate(e: Engine, classname: H.ClassId, ghost rank: map<H.ClassId, nat>) returns (ok: bool)
    requires e.Valid()
    requires (Inv(e.View()) && H.Ranked(e.View(), rank)) || (classname in e.View() ==> OwnOnly(e.View(), classname))
    modifies e.classTable.Values
    ensures e.Valid() && ok == Modifiable(old(e.View()), classname)
    ensures ok <==> classname in old(e.View()) && old(e.View())[classname].kind == H.UserClass
    ensures Inv(old(e.View())) && H.Ranked(old(e.View()), rank) ==>
              && Inv(e.View()) && H.Ranked(e.View(), rank)
              && (ok ==> Emancipates(old(e.View()), rank, classname, e.View()))
              && DeclOf(e.View()) == if ok then Reparent(DeclOf(old(e.View())), classname, None)
                                     else DeclOf(old(e.View()))
    ensures ok && OwnOnly(old(e.View()), classname) && !H.Ranked(old(e.View()), rank) ==>
              e.View() == Detached(old(e.View()), classname)
    ensures !ok || old(e.View())[classname].parent.None? ==> e.View() == old(e.View())
  {
    ghost var f := e.View();
    ghost var own := !(Inv(f) && H.Ranked(f, rank));
    var ce := e.FetchClass(classname);
    if ce == null {
      return false;
    }
    if ce.parent == null {
      if !own { EmancipatesFreed(f, rank, classname, f); }
      assert Detached(f, classname) == f;
      return true;
    }
    ghost var names := RemoveAllInherited(e, ce, rank, own);
    SetParent(e, ce, null);
    if !own { EmancipatesFreed(f, rank, classname, e.View()); }
    return true;
  }

  /** Adopting a parent and emancipating again restores every method table, slot and parent link. */
  method AdoptThenEmancipate(e: Engine, classname: H.ClassId, parentname: H.ClassId, ghost rank: map<H.ClassId, nat>)
    returns (ok: bool)
    requires e.Valid() && Inv(e.View()) && DRanked(DeclOf(e.View()), rank)
    requires CanAdopt(e.View(), classname, parentname) && Closes(DeclOf(e.View()), rank, classname, parentname) ==>
               HasAll(e.View(), classname, parentname)
    modifies e.classTable.Values
    ensures e.Valid() && ok == CanAdopt(old(e.View()), classname, parentname)
    ensures SameTables(old(e.View()), e.View())
  {
    ghost var f := e.View();
    ok := ClassAdopt(e, classname, parentname, rank);
    if ok {
      ghost var up := AdoptRank(DeclOf(f), rank, classname, parentname);
      Midway(f, e.View(), rank, classname, parentname);
      var freed := ClassEmancipate(e, classname, up);
      BackAgain(f, e.View(), rank, classname, parentname);
    }
  }

  /** What emancipate can rely on after adopt. */
  lemma Midway(f: H.Forest, m: H.Forest, rank: map<H.ClassId, nat>, c: H.ClassId, p: H.ClassId)
    requires Inv(f) && DRanked(DeclOf(f), rank) && CanAdopt(f, c, p)
    requires if Closes(DeclOf(f), rank, c, p) then m == WithParent(f, c, p)
             else Adopted(f, m, AdoptRank(DeclOf(f), rank, c, p), c, p)
    ensures Modifiable(m, c)
    ensures var up := AdoptRank(DeclOf(f), rank, c, p);
            if Closes(DeclOf(f), rank, c, p) then OwnOnly(m, c) && !H.Ranked(m, up) else Inv(m) && H.Ranked(m, up)
  {
    if Closes(DeclOf(f), rank, c, p) {
      RootOwns(f, rank, c, p, AdoptRank(DeclOf(f), rank, c, p));
    } else {
      assert c in DeclOf(m) && DeclOf(m)[c].kind == DeclOf(f)[c].kind;
    }
  }

  lemma BackAgain(f: H.Forest, g: H.Forest, rank: map<H.ClassId, nat>, c: H.ClassId, p: H.ClassId)
    requires Inv(f) && DRanked(DeclOf(f), rank) && CanAdopt(f, c, p)
    requires if Closes(DeclOf(f), rank, c, p) then g == Detached(WithParent(f, c, p), c)
             else Inv(g) && H.Ranked(g, AdoptRank(DeclOf(f), rank, c, p))
                  && DeclOf(g) == Reparent(Reparent(DeclOf(f), c, Some(p)), c, None)
    ensures SameTables(f, g)
  {
    if Closes(DeclOf(f), rank, c, p) {
      assert g == f;
    } else {
      ReparentBack(DeclOf(f), c, p);
      SameDeclared(f, g, AdoptRank(DeclOf(f), rank, c, p));
    }
  }

  lemma SameDeclared(f: H.Forest, g: H.Forest, up: map<H.ClassId, nat>)
    requires Inv(f) && Inv(g) && H.Ranked(g, up) && DeclOf(f) == DeclOf(g)
    ensures SameTables(f, g)
  {
    RankedDeclared(f, up);
    RankedDeclared(g, up);
    AllDetermined(f, g, up);
  }

  /** A class without a parent has only methods of its own, before and after its parent link closes a cycle. */
  lemma RootOwns(f: H.Forest, rank: map<H.ClassId, nat>, c: H.ClassId, p: H.ClassId, up: map<H.ClassId, nat>)
    requires Inv(f) && DRanked(DeclOf(f), rank) && c in f && p in f && f[c].parent.None?
          && Closes(DeclOf(f), rank, c, p)
    ensures OwnOnly(WithParent(f, c, p), c) && !H.Ranked(WithParent(f, c, p), up)
  {
    forall n | n in f[c].methods ensures Own(f, c, n) { assert FlatFor(f, n) && FlatAt(f, c, n); }
    AcyclicIff(DeclOf(f), rank, c, p);
    ReparentIndexed(f, c, Some(p));
    RankedDeclared(WithParent(f, c, p), up);
  }
}
