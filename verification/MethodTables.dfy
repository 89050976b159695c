/**
 * The class entries as objects and the mutual recursion of runkit_methods.c
 * over them, proved against the whole-table functions of Hierarchy and MethodOps.
 */
module MethodTables {
  import opened Wrappers
  import CA = ConstantArrays
  import H = Hierarchy
  import opened Coherence
  import opened MethodOps
  import opened MethodEffects
  import opened Sweeps

  /** A zend_class_entry, restricted to what method and constant operations read and write. */
  class ClassEntry {
    const name: H.ClassId
    const kind: H.Kind
    var parent: ClassEntry?
    var methods: H.Table
    var slots: H.Slots
    var guards: bool
    var constants: map<string, H.Const>

    constructor (name: H.ClassId, kind: H.Kind)
      ensures this.name == name && this.kind == kind
      ensures parent == null && methods == map[] && slots == map[] && !guards && constants == map[]
    {
      this.name, this.kind := name, kind;
      parent, methods, slots, guards, constants := null, map[], map[], false, map[];
    }

    function State(): H.Class
      reads this
    {
      H.Class(kind, if parent == null then None else Some(parent.name), methods, slots, guards, constants)
    }

    method SetSlot(k: H.Magic, fe: H.Func)
      modifies this`slots, this`guards
      ensures State() == H.WithSlot(old(State()), k, fe)
    {
      slots := slots[k := fe];
      if H.NeedsGuards(k) {
        guards := true;
      }
    }

    /** PHP_RUNKIT_ADD_MAGIC_METHOD */
    method AddMagic(n: H.Name, fe: H.Func, orig: Option<H.Func>)
      modifies this`slots, this`guards
      ensures State() == H.AddMagic(old(State()), n, fe, orig)
    {
      var hit := H.MagicOf(n);
      if hit.Some? {
        if hit.value.Constructor? {
          if H.Constructor !in slots || Some(slots[H.Constructor]) == orig {
            SetSlot(H.Constructor, fe);
          }
        } else {
          SetSlot(hit.value, fe);
        }
      }
    }

    /** PHP_RUNKIT_DEL_MAGIC_METHOD */
    method DelMagic(fe: H.Func)
      modifies this`slots
      ensures State() == H.DelMagic(old(State()), fe)
    {
      var hit := H.HoldingSlot(slots, fe);
      if hit.Some? {
        slots := slots - {hit.value};
      }
    }

    /** The middle of php_runkit_update_children_methods: take the entry over from the parent. */
    method TakeOver(ch: H.Change)
      requires parent != null && parent != this
      modifies this`methods, this`slots, this`guards
      ensures State() == H.InheritMagic(H.Put(old(State()), ch.name, ch.fe), old(parent.slots), ch.fe, ch.orig)
    {
      if ch.name in methods {
        methods := methods - {ch.name};
      }
      methods := methods[ch.name := ch.fe];
      assert methods == old(methods)[ch.name := ch.fe];
      InheritMagic(ch.fe, ch.orig);
    }

    /** Store the entry and run the add chain. */
    method Store(ch: H.Change)
      modifies this`methods, this`slots, this`guards
      ensures State() == H.AddMagic(H.Put(old(State()), ch.name, ch.fe), ch.name, ch.fe, ch.orig)
    {
      methods := methods[ch.name := ch.fe];
      AddMagic(ch.name, ch.fe, ch.orig);
    }

    /** Delete the entry and clear the slot that holds fe. */
    method Remove(n: H.Name, fe: H.Func)
      modifies this`methods, this`slots
      ensures State() == H.DelMagic(H.Drop(old(State()), n), fe)
    {
      methods := methods - {n};
      DelMagic(fe);
    }

    /** Add the clone under m, then delete the entry n and clear its slot. */
    method Move(n: H.Name, m: H.Name, fe: H.Func, func: H.Func)
      requires m !in methods
      modifies this`methods, this`slots
      ensures var c := H.DelMagic(H.Drop(old(State()), n), fe);
              State() == if n == m then c else H.Put(c, m, func)
    {
      ghost var ms := methods;
      methods := methods[m := func];
      methods := methods - {n};
      assert methods == if n == m then ms - {n} else (ms - {n})[m := func];
      DelMagic(fe);
    }

    /** php_runkit_remove_from_constants_table */
    method RemoveConst(cname: string) returns (ok: bool)
      modifies this`constants
      ensures ok == (cname in old(constants)) && constants == old(constants) - {cname}
    {
      ok := cname in constants;
      constants := constants - {cname};
    }

    /** php_runkit_class_constant_add_raw */
    method AddConstRaw(cname: string, value: CA.Zval, access: H.Access) returns (ok: bool)
      modifies this`constants
      ensures ok == (cname !in old(constants))
      ensures State() == if ok then H.WithConst(old(State()), cname, H.Const(value, access, name, false))
                         else old(State())
    {
      if cname in constants {
        return false;
      }
      constants := constants[cname := H.Const(value, access, name, false)];
      return true;
    }

    /** Remove then add again: the add never finds the name taken. */
    method RebindConst(cname: string, value: CA.Zval, access: H.Access)
      modifies this`constants
      ensures State() == H.WithConst(old(State()), cname, H.Const(value, access, name, false))
    {
      ghost var before, k := constants, H.Const(value, access, name, false);
      var removed := RemoveConst(cname);
      var ok := AddConstRaw(cname, value, access);
      if !ok {
        assert false;  // "Error updating child class"
      }
      assert (before - {cname})[cname := k] == before[cname := k];
    }

    /** php_runkit_inherit_magic */
    method InheritMagic(fe: H.Func, orig: Option<H.Func>)
      requires parent != null
      modifies this`slots, this`guards
      ensures State() == H.InheritMagic(old(State()), old(parent.slots), fe, orig)
    {
      var hit := H.InheritedSlot(slots, parent.slots, fe, orig);
      if hit.Some? {
        SetSlot(hit.value, parent.slots[hit.value]);
      }
    }
  }

  /** Class c in goal is what the update pass makes of it, given its parent's result. */
  ghost predicate UpdateAt(f: H.Forest, ch: H.Change, goal: H.Forest, c: H.ClassId) {
    && c in f && c in goal && f[c].parent.Some? && f[c].parent.value in goal
    && goal[c] == if H.Open(f[c], ch.name, ch.ancestor)
                  then H.InheritMagic(H.Put(f[c], ch.name, ch.fe), goal[f[c].parent.value].slots, ch.fe, ch.orig)
                  else f[c]
  }

  ghost predicate IsUpdate(f: H.Forest, rank: map<H.ClassId, nat>, top: H.ClassId, ch: H.Change, goal: H.Forest)
    requires H.Ranked(f, rank)
  {
    forall c {:trigger UpdateAt(f, ch, goal, c)} | c in f && H.Under(f, rank, c, top) :: UpdateAt(f, ch, goal, c)
  }

  lemma UpdateBelowIsUpdate(f: H.Forest, rank: map<H.ClassId, nat>, top: H.ClassId, ch: H.Change)
    requires H.Ranked(f, rank)
    ensures IsUpdate(f, rank, top, ch, H.UpdateBelow(f, rank, top, ch))
    ensures Shaped(f, H.UpdateBelow(f, rank, top, ch))
  {
  }

  /** Class c in goal is what the clean pass leaves of it. */
  ghost predicate CleanAt(f: H.Forest, rank: map<H.ClassId, nat>, top: H.ClassId, ancestor: H.ClassId, n: H.Name,
                          orig: H.Func, goal: H.Forest, c: H.ClassId)
    requires H.Ranked(f, rank)
  {
    c in f && c in goal && goal[c] == H.CleanedClass(f, rank, top, ancestor, n, orig, c)
  }

  ghost predicate IsClean(f: H.Forest, rank: map<H.ClassId, nat>, top: H.ClassId, ancestor: H.ClassId, n: H.Name,
                          orig: H.Func, goal: H.Forest)
    requires H.Ranked(f, rank)
  {
    forall c {:trigger CleanAt(f, rank, top, ancestor, n, orig, goal, c)} | c in f ::
      CleanAt(f, rank, top, ancestor, n, orig, goal, c)
  }

  lemma CleanBelowIsClean(f: H.Forest, rank: map<H.ClassId, nat>, top: H.ClassId, ancestor: H.ClassId, n: H.Name,
                          orig: H.Func)
    requires H.Ranked(f, rank)
    ensures IsClean(f, rank, top, ancestor, n, orig, H.CleanBelow(f, rank, top, ancestor, n, orig))
    ensures Shaped(f, H.CleanBelow(f, rank, top, ancestor, n, orig))
  {
  }

  /** The clean pass has got as far as p. */
  ghost predicate OnCleanPath(f: H.Forest, rank: map<H.ClassId, nat>, top: H.ClassId, ancestor: H.ClassId, n: H.Name,
                              p: H.ClassId)
    requires H.Ranked(f, rank)
  {
    p in f && (p == top || H.Cleaned(f, rank, top, ancestor, n, p))
  }

  lemma {:induction false} NotCleanedBelow(f: H.Forest, rank: map<H.ClassId, nat>, top: H.ClassId,
                                           ancestor: H.ClassId, n: H.Name, d: H.ClassId, c: H.ClassId)
    requires H.Ranked(f, rank) && c in f && d in f && top in f && InSubtree(f, rank, c, d) && rank[top] < rank[d]
    requires !H.Cleaned(f, rank, top, ancestor, n, d)
    ensures !H.Cleaned(f, rank, top, ancestor, n, c)
    decreases rank[c]
  {
    if c != d {
      if f[c].parent.value == top {
        assert f[c].parent.value != d;
        UnderRank(f, rank, top, d);
      }
      NotCleanedBelow(f, rank, top, ancestor, n, d, f[c].parent.value);
    }
  }

  /** The pass goes on at d. */
  lemma CleanGoesOn(f: H.Forest, rank: map<H.ClassId, nat>, top: H.ClassId, ancestor: H.ClassId, n: H.Name,
                    orig: H.Func, goal: H.Forest, p: H.ClassId, d: H.ClassId)
    requires H.Ranked(f, rank) && d in f && top in f && f[d].parent == Some(p)
    requires IsClean(f, rank, top, ancestor, n, orig, goal) && OnCleanPath(f, rank, top, ancestor, n, p)
    requires n in f[d].methods && f[d].methods[n].scope == ancestor
    ensures OnCleanPath(f, rank, top, ancestor, n, d)
    ensures d in goal && goal[d] == H.DelMagic(H.Drop(f[d], n), orig)
  {
    assert CleanAt(f, rank, top, ancestor, n, orig, goal, d);
  }

  /** Below a class where the pass stops, nothing changes. */
  lemma BlockedBelow(f: H.Forest, rank: map<H.ClassId, nat>, top: H.ClassId, ancestor: H.ClassId, n: H.Name,
                     orig: H.Func, goal: H.Forest, p: H.ClassId, d: H.ClassId)
    requires H.Ranked(f, rank) && d in f && top in f && f[d].parent == Some(p)
    requires IsClean(f, rank, top, ancestor, n, orig, goal) && OnCleanPath(f, rank, top, ancestor, n, p)
    requires !(n in f[d].methods && f[d].methods[n].scope == ancestor)
    ensures Agree(f, goal, VisitSet(f, rank, p, d))
  {
    if p != top {
      CleanedUnder(f, rank, top, ancestor, n, p);
      UnderRank(f, rank, p, top);
    }
    forall c | c in VisitSet(f, rank, p, d) ensures AgreeAt(f, goal, c) {
      NotCleanedBelow(f, rank, top, ancestor, n, d, c);
      assert CleanAt(f, rank, top, ancestor, n, orig, goal, c);
    }
  }

  /** A sweep below top is the whole pass: nothing else changes. */
  lemma UpdatePassTotal(f: H.Forest, rank: map<H.ClassId, nat>, top: H.ClassId, ch: H.Change)
    requires H.Ranked(f, rank) && top in f
    ensures var goal := H.UpdateBelow(f, rank, top, ch);
            AgreeAt(goal, f, top) && Mix(f, goal, Below(f, rank, top)) == goal
  {
    if H.Under(f, rank, top, top) { UnderRank(f, rank, top, top); }
  }

  lemma CleanPassTotal(f: H.Forest, rank: map<H.ClassId, nat>, top: H.ClassId, ancestor: H.ClassId, n: H.Name,
                       orig: H.Func)
    requires H.Ranked(f, rank) && top in f
    ensures var goal := H.CleanBelow(f, rank, top, ancestor, n, orig);
            AgreeAt(goal, f, top) && Mix(f, goal, Below(f, rank, top)) == goal
  {
    var goal := H.CleanBelow(f, rank, top, ancestor, n, orig);
    if H.Under(f, rank, top, top) { UnderRank(f, rank, top, top); }
    forall c | c in f && c !in Below(f, rank, top) ensures goal[c] == f[c] {
      if H.Cleaned(f, rank, top, ancestor, n, c) {
        CleanedUnder(f, rank, top, ancestor, n, c);
      }
    }
  }

  /** The clean pass does not look at the class it starts from. */
  lemma SameCleaning(f: H.Forest, f1: H.Forest, rank: map<H.ClassId, nat>, top: H.ClassId, ancestor: H.ClassId,
                     n: H.Name, orig: H.Func)
    requires H.Ranked(f, rank) && top in f && f1.Keys == f.Keys && H.Ranked(f1, rank)
    requires f1[top].parent == f[top].parent && f1[top].kind == f[top].kind
    requires forall c | c in f && c != top :: f1[c] == f[c]
    ensures var g1, g := H.CleanBelow(f1, rank, top, ancestor, n, orig), H.CleanBelow(f, rank, top, ancestor, n, orig);
            g1.Keys == g.Keys && g1[top] == f1[top] && forall c | c in f && c != top :: g1[c] == g[c]
  {
    CleanPassTotal(f1, rank, top, ancestor, n, orig);
    forall c | c in f && c != top
      ensures H.Cleaned(f1, rank, top, ancestor, n, c) == H.Cleaned(f, rank, top, ancestor, n, c)
    {
      SameCleaned(f, f1, rank, top, ancestor, n, c);
    }
  }

  lemma {:induction false} SameCleaned(f: H.Forest, f1: H.Forest, rank: map<H.ClassId, nat>, top: H.ClassId,
                                       ancestor: H.ClassId, n: H.Name, c: H.ClassId)
    requires H.Ranked(f, rank) && top in f && f1.Keys == f.Keys && H.Ranked(f1, rank) && c in f && c != top
    requires forall x | x in f && x != top :: f1[x] == f[x]
    ensures H.Cleaned(f1, rank, top, ancestor, n, c) == H.Cleaned(f, rank, top, ancestor, n, c)
    decreases rank[c]
  {
    if f[c].parent.Some? && f[c].parent.value != top {
      SameCleaned(f, f1, rank, top, ancestor, n, f[c].parent.value);
    }
  }

  /** What rename installs into has neither name in the class. */
  lemma RenameBaseShape(f: H.Forest, rank: map<H.ClassId, nat>, c: H.ClassId, n: H.Name, m: H.Name, fe: H.Func)
    requires H.Ranked(f, rank) && c in f
    ensures var g := RenameBase(f, rank, c, n, m, fe);
            && H.Ranked(g, rank) && c in g && n !in g[c].methods && m !in g[c].methods
  {
    var x := H.DelMagic(H.Drop(H.Drop(f[c], m), n), fe);
    DelMagicTable(H.Drop(f[c], m), n, fe);
    CleanBelowIsClean(f, rank, c, fe.scope, n, fe);
    RankedReplace(f, H.CleanBelow(f, rank, c, fe.scope, n, fe), rank, c, x);
  }

  lemma RankedPut(g: H.Forest, rank: map<H.ClassId, nat>, c: H.ClassId, m: H.Name, func: H.Func)
    requires H.Ranked(g, rank) && c in g
    ensures H.Ranked(g[c := H.Put(g[c], m, func)], rank)
  {
  }

  lemma RankedReplace(f: H.Forest, g: H.Forest, rank: map<H.ClassId, nat>, c: H.ClassId, x: H.Class)
    requires H.Ranked(f, rank) && Shaped(f, g) && c in f && x.parent == f[c].parent
    ensures H.Ranked(g[c := x], rank)
  {
    forall d | d in f ensures ParentAt(f, g[c := x], d) {
      assert ParentAt(f, g, d);
    }
  }

  lemma PutInto(g: H.Forest, c: H.ClassId, x: H.Class, m: H.Name, func: H.Func)
    requires c in g
    ensures g[c := x][c := H.Put(g[c := x][c], m, func)] == g[c := H.Put(x, m, func)]
  {
  }

  lemma RenameUnfolds(f: H.Forest, rank: map<H.ClassId, nat>, c: H.ClassId, n: H.Name, m: H.Name, id: nat)
    requires H.Ranked(f, rank) && HasUserMethod(f, c, n) && !(m in f[c].methods && f[c].methods[m].scope == c)
    ensures var fe := f[c].methods[n];
            var g := RenameBase(f, rank, c, n, m, fe);
            && H.Ranked(g, rank) && c in g
            && RenameMethod(f, rank, c, n, m, id)
               == if n == m then (g, false)
                  else (Install(g, rank, c, H.Change(c, m, H.Func(id, m, c, fe.body, true), None)), true)
  {
    var fe := f[c].methods[n];
    RenameBaseShape(f, rank, c, n, m, fe);
  }

  /** Cleaning after the inherited entry m was dropped, then replacing the class itself. */
  lemma CleanAfterDrop(f: H.Forest, rank: map<H.ClassId, nat>, c: H.ClassId, n: H.Name, m: H.Name, fe: H.Func,
                       x: H.Class)
    requires H.Ranked(f, rank) && c in f
    ensures var f1 := f[c := H.Drop(f[c], m)];
            && H.Ranked(f1, rank)
            && var g1 := H.CleanBelow(f1, rank, c, fe.scope, n, fe);
               c in g1 && g1[c] == f1[c] && g1[c := x] == H.CleanBelow(f, rank, c, fe.scope, n, fe)[c := x]
  {
    SameCleaning(f, f[c := H.Drop(f[c], m)], rank, c, fe.scope, n, fe);
  }

  // ----- the engine

  class Engine {
    const classTable: map<H.ClassId, ClassEntry>

    constructor (classTable: map<H.ClassId, ClassEntry>)
      ensures this.classTable == classTable
    {
      this.classTable := classTable;
    }

    ghost predicate Valid()
      reads this, classTable.Values
    {
      forall n | n in classTable ::
        && classTable[n].name == n
        && (classTable[n].parent != null ==>
              classTable[n].parent.name in classTable && classTable[classTable[n].parent.name] == classTable[n].parent)
    }

    ghost function View(): H.Forest
      reads this, classTable.Values
    {
      map n | n in classTable :: classTable[n].State()
    }

    ghost predicate Holds(ce: ClassEntry)
      reads this
    {
      ce.name in classTable && classTable[ce.name] == ce
    }

    lemma StateOf(ce: ClassEntry)
      requires Holds(ce)
      ensures ce.name in View() && View()[ce.name] == ce.State()
    {
    }

    /** Changing one entry's tables changes one class of the view. */
    twostate lemma OnlyChanged(ce: ClassEntry)
      requires old(Valid()) && Holds(ce) && ce.parent == old(ce.parent)
      requires forall n | n in classTable && n != ce.name :: classTable[n].State() == old(classTable[n].State())
      requires forall n | n in classTable && n != ce.name :: classTable[n].parent == old(classTable[n].parent)
      ensures Valid() && View() == old(View())[ce.name := ce.State()]
    {
    }

    /** php_runkit_fetch_class */
    function FetchClass(name: H.ClassId): (ce: ClassEntry?)
      requires Valid()
      reads this, classTable.Values
      ensures ce != null <==> Modifiable(View(), name)
      ensures ce != null ==> ce.name == name && Holds(ce) && View()[name] == ce.State()
    {
      if name in classTable && classTable[name].kind.UserClass? then classTable[name] else null
    }

    /** php_runkit_fetch_class_method */
    function FetchClassMethod(name: H.ClassId, n: H.Name): (r: Option<(ClassEntry, H.Func)>)
      requires Valid()
      reads this, classTable.Values
      ensures r.Some? <==> HasUserMethod(View(), name, n)
      ensures r.Some? ==> var (ce, fe) := r.value;
                          ce.name == name && Holds(ce) && View()[name] == ce.State() && n in ce.methods
                            && fe == ce.methods[n]
    {
      if name !in classTable then None
      else
        var ce := classTable[name];
        if ce.kind.InternalClass? || n !in ce.methods || !ce.methods[n].user then None
        else Some((ce, ce.methods[n]))
    }

    /** php_runkit_update_children_methods_foreach */
    method UpdateChildrenForeach(parent: ClassEntry, ch: H.Change, ghost f: H.Forest, ghost rank: map<H.ClassId, nat>,
                                 ghost top: H.ClassId, ghost goal: H.Forest)
      requires Valid() && Holds(parent) && H.Ranked(f, rank) && Shaped(f, View()) && Shaped(f, goal)
      requires Agree(f, View(), Below(f, rank, parent.name)) && AgreeAt(goal, View(), parent.name)
      requires IsUpdate(f, rank, top, ch, goal) && InSubtree(f, rank, parent.name, top)
      modifies classTable.Values`methods, classTable.Values`slots, classTable.Values`guards
      ensures Valid() && View() == Mix(old(View()), goal, Below(f, rank, parent.name))
      decreases Above(rank, parent.name), 1
    {
      var todo, p := classTable.Keys, parent.name;
      ghost var v0, done: set<H.ClassId> := View(), {};
      ScanEnds(f, rank, p);
      MixMix(v0, goal, {}, {});
      SplitEnds(f.Keys, todo, done);
      while todo != {}
        invariant Split(f.Keys, todo, done)
        invariant Valid() && View() == Mix(v0, goal, ReachedSet(f, rank, done, p))
      {
        var d :| d in todo;
        SplitStep(f.Keys, todo, done, d);
        ScanStep(f, rank, goal, v0, done, p, d);
        UpdateChildren(classTable[d], parent, ch, f, rank, top, goal);
        todo, done := todo - {d}, done + {d};
      }
      SplitEnds(f.Keys, todo, done);
    }

    /** php_runkit_update_children_methods */
    method UpdateChildren(ce: ClassEntry, parent: ClassEntry, ch: H.Change, ghost f: H.Forest,
                          ghost rank: map<H.ClassId, nat>, ghost top: H.ClassId, ghost goal: H.Forest)
      requires Valid() && Holds(ce) && Holds(parent) && H.Ranked(f, rank)
      requires Shaped(f, View()) && Shaped(f, goal)
      requires Agree(f, View(), VisitSet(f, rank, parent.name, ce.name)) && AgreeAt(goal, View(), parent.name)
      requires IsUpdate(f, rank, top, ch, goal) && InSubtree(f, rank, parent.name, top)
      modifies classTable.Values`methods, classTable.Values`slots, classTable.Values`guards
      ensures Valid() && View() == Mix(old(View()), goal, VisitSet(f, rank, parent.name, ce.name))
      decreases Above(rank, parent.name), 0
    {
      ghost var v := View();
      assert ParentAt(f, v, ce.name);
      MixMix(v, goal, {}, {});
      if ce.parent != parent {
        return;
      }
      VisitFirst(f, rank, goal, v, parent.name, ce.name);
      assert UpdateAt(f, ch, goal, ce.name);
      Settle(ce, ch, goal);
      /* Process children of this child */
      UpdateChildrenForeach(ce, ch, f, rank, top, goal);
    }

    /** A method defined below the current level is left be, any other entry is taken over from the parent. */
    method Settle(ce: ClassEntry, ch: H.Change, ghost goal: H.Forest)
      requires Valid() && Holds(ce) && ce.parent != null && ce.parent != ce && AgreeAt(goal, View(), ce.parent.name)
      requires UpdateAt(View(), ch, goal, ce.name)
      modifies ce`methods, ce`slots, ce`guards
      ensures Valid() && View() == Mix(old(View()), goal, {ce.name})
    {
      ghost var v := View();
      StateOf(ce);
      StateOf(ce.parent);
      if ch.name !in ce.methods || ce.methods[ch.name].scope == ch.ancestor {
        ce.TakeOver(ch);
      }
      OnlyChanged(ce);
      MixOne(v, goal, ce.name);
    }

    /** php_runkit_clean_children_methods_foreach */
    method CleanChildrenForeach(ancestor: H.ClassId, parent: ClassEntry, n: H.Name, orig: H.Func, ghost f: H.Forest,
                                ghost rank: map<H.ClassId, nat>, ghost top: H.ClassId, ghost goal: H.Forest)
      requires Valid() && Holds(parent) && H.Ranked(f, rank) && Shaped(f, View()) && Shaped(f, goal)
      requires Agree(f, View(), Below(f, rank, parent.name))
      requires IsClean(f, rank, top, ancestor, n, orig, goal) && OnCleanPath(f, rank, top, ancestor, n, parent.name)
      requires top in f
      modifies classTable.Values`methods, classTable.Values`slots
      ensures Valid() && View() == Mix(old(View()), goal, Below(f, rank, parent.name))
      decreases Above(rank, parent.name), 1
    {
      var todo, p := classTable.Keys, parent.name;
      ghost var v0, done: set<H.ClassId> := View(), {};
      ScanEnds(f, rank, p);
      MixMix(v0, goal, {}, {});
      SplitEnds(f.Keys, todo, done);
      while todo != {}
        invariant Split(f.Keys, todo, done)
        invariant Valid() && View() == Mix(v0, goal, ReachedSet(f, rank, done, p))
      {
        var d :| d in todo;
        SplitStep(f.Keys, todo, done, d);
        ScanStep(f, rank, goal, v0, done, p, d);
        CleanChildren(classTable[d], ancestor, parent, n, orig, f, rank, top, goal);
        todo, done := todo - {d}, done + {d};
      }
      SplitEnds(f.Keys, todo, done);
    }

    /** php_runkit_clean_children_methods */
    method CleanChildren(ce: ClassEntry, ancestor: H.ClassId, parent: ClassEntry, n: H.Name, orig: H.Func,
                         ghost f: H.Forest, ghost rank: map<H.ClassId, nat>, ghost top: H.ClassId, ghost goal: H.Forest)
      requires Valid() && Holds(ce) && Holds(parent) && H.Ranked(f, rank)
      requires Shaped(f, View()) && Shaped(f, goal) && Agree(f, View(), VisitSet(f, rank, parent.name, ce.name))
      requires IsClean(f, rank, top, ancestor, n, orig, goal) && OnCleanPath(f, rank, top, ancestor, n, parent.name)
      requires top in f
      modifies classTable.Values`methods, classTable.Values`slots
      ensures Valid() && View() == Mix(old(View()), goal, VisitSet(f, rank, parent.name, ce.name))
      decreases Above(rank, parent.name), 0
    {
      ghost var v := View();
      assert ParentAt(f, v, ce.name);
      MixMix(v, goal, {}, {});
      if ce.parent != parent {
        return;
      }
      VisitLast(f, rank, goal, v, parent.name, ce.name);
      if n !in ce.methods || ce.methods[n].scope != ancestor {
        /* defined below our current level, or nothing to destroy */
        BlockedBelow(f, rank, top, ancestor, n, orig, goal, parent.name, ce.name);
        VisitNothing(f, rank, goal, v, parent.name, ce.name);
        return;
      }
      CleanGoesOn(f, rank, top, ancestor, n, orig, goal, parent.name, ce.name);
      /* Process children of this child */
      CleanChildrenForeach(ancestor, ce, n, orig, f, rank, top, goal);
      TakeOut(ce, n, orig, goal);
    }

    method TakeOut(ce: ClassEntry, n: H.Name, orig: H.Func, ghost goal: H.Forest)
      requires Valid() && Holds(ce)
      requires ce.name in goal && goal[ce.name] == H.DelMagic(H.Drop(View()[ce.name], n), orig)
      modifies ce`methods, ce`slots
      ensures Valid() && View() == Mix(old(View()), goal, {ce.name})
    {
      ghost var v := View();
      StateOf(ce);
      ce.Remove(n, orig);
      OnlyChanged(ce);
      MixOne(v, goal, ce.name);
    }

    /** The whole update pass from a class. */
    method Propagate(ce: ClassEntry, ch: H.Change, ghost rank: map<H.ClassId, nat>)
      requires Valid() && Holds(ce) && H.Ranked(View(), rank)
      modifies classTable.Values`methods, classTable.Values`slots, classTable.Values`guards
      ensures Valid() && View() == H.UpdateBelow(old(View()), rank, ce.name, ch)
    {
      ghost var f, top := View(), ce.name;
      ghost var goal := H.UpdateBelow(f, rank, top, ch);
      UpdateBelowIsUpdate(f, rank, top, ch);
      UpdatePassTotal(f, rank, top, ch);
      UpdateChildrenForeach(ce, ch, f, rank, top, goal);
    }

    /** The whole clean pass from a class. */
    method CleanUp(ancestor: H.ClassId, ce: ClassEntry, n: H.Name, orig: H.Func, ghost rank: map<H.ClassId, nat>)
      requires Valid() && Holds(ce) && H.Ranked(View(), rank)
      modifies classTable.Values`methods, classTable.Values`slots
      ensures Valid() && View() == H.CleanBelow(old(View()), rank, ce.name, ancestor, n, orig)
    {
      ghost var f, top := View(), ce.name;
      ghost var goal := H.CleanBelow(f, rank, top, ancestor, n, orig);
      CleanBelowIsClean(f, rank, top, ancestor, n, orig);
      CleanPassTotal(f, rank, top, ancestor, n, orig);
      CleanChildrenForeach(ancestor, ce, n, orig, f, rank, top, goal);
    }

    /** Storing the entry, the add chain and the update pass. */
    method InstallIn(ce: ClassEntry, ch: H.Change, ghost rank: map<H.ClassId, nat>)
      requires Valid() && Holds(ce) && H.Ranked(View(), rank)
      modifies classTable.Values`methods, classTable.Values`slots, classTable.Values`guards
      ensures Valid() && View() == Install(old(View()), rank, ce.name, ch)
    {
      ce.Store(ch);
      OnlyChanged(ce);
      Propagate(ce, ch, rank);
    }

    method DropFrom(ce: ClassEntry, n: H.Name)
      requires Valid() && Holds(ce)
      modifies ce`methods
      ensures Valid() && View() == old(View())[ce.name := H.Drop(old(View())[ce.name], n)]
    {
      ce.methods := ce.methods - {n};
      OnlyChanged(ce);
    }

    /** php_runkit_method_add_or_update; `active` holds the functions on the call stack. */
    method AddOrUpdate(update: bool, classname: H.ClassId, n: H.Name, id: nat, body: nat, active: set<nat>,
                       ghost rank: map<H.ClassId, nat>)
      returns (ok: bool)
      requires Valid() && H.Ranked(View(), rank)
      modifies classTable.Values`methods, classTable.Values`slots, classTable.Values`guards
      ensures Valid()
      ensures (View(), ok) == if update then RedefineMethod(old(View()), rank, classname, n, id, body, active)
                              else AddMethod(old(View()), rank, classname, n, id, body)
      ensures ok <==> if update then UserEntry(old(View()), classname, n)
                                     && old(View())[classname].methods[n].id !in active
                      else !Refused(old(View()), classname, n)
      ensures if ok then Entry(View(), classname, n) == Some(H.Func(id, n, classname, body, true))
              else View() == old(View())
    {
      RedefineOwn(View(), rank, classname, n, id, body, active);
      AddEntries(View(), rank, classname, n, id, body);
      if update {
        var found := FetchClassMethod(classname, n);
        if found.None? || found.value.1.id in active {
          return false;
        }
        var (ce, fe) := found.value;
        InstallIn(ce, H.Change(fe.scope, n, H.Func(id, n, ce.name, body, true), Some(fe)), rank);
      } else {
        var ce := FetchClass(classname);
        if ce == null || (n in ce.methods && ce.methods[n].scope == ce.name) {
          return false;
        }
        PlaceIn(ce, H.Func(id, n, ce.name, body, true), rank);
      }
      return true;
    }

    method PlaceIn(ce: ClassEntry, fe: H.Func, ghost rank: map<H.ClassId, nat>)
      requires Valid() && Holds(ce) && H.Ranked(View(), rank)
      modifies classTable.Values`methods, classTable.Values`slots, classTable.Values`guards
      ensures Valid() && View() == Place(old(View()), rank, ce.name, fe)
    {
      if fe.name in ce.methods {
        DropFrom(ce, fe.name);
      } else {
        assert ce.methods - {fe.name} == ce.methods;
        assert View()[ce.name := H.Drop(View()[ce.name], fe.name)] == View();
      }
      InstallIn(ce, H.Change(ce.name, fe.name, fe, None), rank);
    }

    /** php_runkit_method_copy */
    method MethodCopy(dclass: H.ClassId, dfunc: H.Name, sclass: H.ClassId, sfunc: H.Name, id: nat,
                      ghost rank: map<H.ClassId, nat>)
      returns (ok: bool)
      requires Valid() && H.Ranked(View(), rank)
      modifies classTable.Values`methods, classTable.Values`slots, classTable.Values`guards
      ensures Valid() && (View(), ok) == CopyMethod(old(View()), rank, dclass, dfunc, sclass, sfunc, id)
      ensures ok <==> UserEntry(old(View()), sclass, sfunc) && !Refused(old(View()), dclass, dfunc)
      ensures if ok then
                var body := old(View())[sclass].methods[sfunc].body;
                Entry(View(), dclass, dfunc) == Some(H.Func(id, dfunc, dclass, body, true))
              else View() == old(View())
    {
      CopyEntries(View(), rank, dclass, dfunc, sclass, sfunc, id);
      var found := FetchClassMethod(sclass, sfunc);
      if found.None? {
        return false;
      }
      var sfe := found.value.1;
      var dce := FetchClass(dclass);
      if dce == null || (dfunc in dce.methods && dce.methods[dfunc].scope == dce.name) {
        return false;
      }
      PlaceIn(dce, H.Func(id, dfunc, dce.name, sfe.body, true), rank);
      return true;
    }

    /** Delete ce's entry and clear its slot. */
    method RemoveIn(ce: ClassEntry, n: H.Name, fe: H.Func)
      requires Valid() && Holds(ce)
      modifies ce`methods, ce`slots
      ensures Valid() && View() == old(View())[ce.name := H.DelMagic(H.Drop(old(View())[ce.name], n), fe)]
    {
      ce.Remove(n, fe);
      OnlyChanged(ce);
    }

    /** runkit7_method_remove */
    method MethodRemove(classname: H.ClassId, n: H.Name, ghost rank: map<H.ClassId, nat>) returns (ok: bool)
      requires Valid() && H.Ranked(View(), rank)
      modifies classTable.Values`methods, classTable.Values`slots
      ensures Valid() && (View(), ok) == RemoveMethod(old(View()), rank, classname, n)
      ensures ok <==> UserEntry(old(View()), classname, n)
      ensures if ok then Entry(View(), classname, n) == None else View() == old(View())
    {
      var found := FetchClassMethod(classname, n);
      if found.None? {
        return false;
      }
      var (ce, fe) := found.value;
      UninstallIn(ce, n, fe, rank);
      return true;
    }

    /** The clean pass, then the entry and its slot in ce itself. */
    method UninstallIn(ce: ClassEntry, n: H.Name, fe: H.Func, ghost rank: map<H.ClassId, nat>)
      requires Valid() && Holds(ce) && H.Ranked(View(), rank) && n in ce.methods && fe == ce.methods[n]
      modifies classTable.Values`methods, classTable.Values`slots
      ensures Valid() && ce.name in old(View()) && n in old(View())[ce.name].methods
      ensures View() == Uninstall(old(View()), rank, ce.name, n)
    {
      CleanPassTotal(View(), rank, ce.name, fe.scope, n, fe);
      CleanUp(fe.scope, ce, n, fe, rank);
      RemoveIn(ce, n, fe);
    }

    /** The first half of a rename: clean below, add the clone under m, delete n and its slot. */
    method MoveIn(ce: ClassEntry, n: H.Name, m: H.Name, fe: H.Func, func: H.Func)
      requires Valid() && Holds(ce) && m !in ce.methods
      modifies ce`methods, ce`slots
      ensures var c := H.DelMagic(H.Drop(old(View())[ce.name], n), fe);
              Valid() && View() == old(View())[ce.name := if n == m then c else H.Put(c, m, func)]
    {
      ce.Move(n, m, fe, func);
      OnlyChanged(ce);
    }

    /** The second half: the add chain and the update pass. */
    method AnnounceIn(ce: ClassEntry, ch: H.Change, ghost before: H.Forest, ghost rank: map<H.ClassId, nat>)
      requires Valid() && Holds(ce) && H.Ranked(View(), rank) && H.Ranked(before, rank) && ce.name in before
      requires View() == before[ce.name := H.Put(before[ce.name], ch.name, ch.fe)]
      modifies classTable.Values`methods, classTable.Values`slots, classTable.Values`guards
      ensures Valid() && View() == Install(before, rank, ce.name, ch)
    {
      AddMagicIn(ce, ch, before);
      Propagate(ce, ch, rank);
    }

    method AddMagicIn(ce: ClassEntry, ch: H.Change, ghost before: H.Forest)
      requires Valid() && Holds(ce) && ce.name in before
      requires View() == before[ce.name := H.Put(before[ce.name], ch.name, ch.fe)]
      modifies ce`slots, ce`guards
      ensures Valid()
      ensures View() == before[ce.name := H.AddMagic(H.Put(before[ce.name], ch.name, ch.fe), ch.name, ch.fe, ch.orig)]
    {
      assert ce.State() == View()[ce.name];
      ce.AddMagic(ch.name, ch.fe, ch.orig);
      OnlyChanged(ce);
    }

    /** runkit7_method_rename */
    method MethodRename(classname: H.ClassId, n: H.Name, m: H.Name, id: nat, ghost rank: map<H.ClassId, nat>)
      returns (ok: bool)
      requires Valid() && H.Ranked(View(), rank)
      modifies classTable.Values`methods, classTable.Values`slots, classTable.Values`guards
      ensures Valid() && (View(), ok) == RenameMethod(old(View()), rank, classname, n, m, id)
      ensures ok <==> UserEntry(old(View()), classname, n) && n != m
                      && !(m in old(View())[classname].methods && old(View())[classname].methods[m].scope == classname)
      ensures ok ==> Entry(View(), classname, n) == None
                     && Entry(View(), classname, m)
                        == Some(H.Func(id, m, classname, old(View())[classname].methods[n].body, true))
    {
      RenameOwn(View(), rank, classname, n, m, id);
      ghost var f := View();
      var found := FetchClassMethod(classname, n);
      if found.None? {
        return false;
      }
      var (ce, fe) := found.value;
      if m in ce.methods && ce.methods[m].scope == ce.name {
        return false;
      }
      RenameUnfolds(f, rank, ce.name, n, m, id);
      ok := RenameIn(ce, n, m, fe, H.Func(id, m, ce.name, fe.body, true), rank);
    }

    method RenameIn(ce: ClassEntry, n: H.Name, m: H.Name, fe: H.Func, func: H.Func, ghost rank: map<H.ClassId, nat>)
      returns (ok: bool)
      requires Valid() && Holds(ce) && H.Ranked(View(), rank)
      modifies classTable.Values`methods, classTable.Values`slots, classTable.Values`guards
      ensures var g := RenameBase(old(View()), rank, ce.name, n, m, fe);
              && Valid() && ok == (n != m) && H.Ranked(g, rank) && ce.name in g
              && View() == if n == m then g else Install(g, rank, ce.name, H.Change(ce.name, m, func, None))
    {
      ghost var g := RenameBase(View(), rank, ce.name, n, m, fe);
      RenameBaseShape(View(), rank, ce.name, n, m, fe);
      RankedPut(g, rank, ce.name, m, func);
      CleanAndMove(ce, n, m, fe, func, rank);
      assert ce.methods == View()[ce.name].methods;
      if m !in ce.methods {
        return false;
      }
      AnnounceIn(ce, H.Change(ce.name, m, func, None), g, rank);
      return true;
    }

    method CleanAndMove(ce: ClassEntry, n: H.Name, m: H.Name, fe: H.Func, func: H.Func, ghost rank: map<H.ClassId, nat>)
      requires Valid() && Holds(ce) && H.Ranked(View(), rank)
      modifies classTable.Values`methods, classTable.Values`slots
      ensures var g := RenameBase(old(View()), rank, ce.name, n, m, fe);
              Valid() && View() == if n == m then g else g[ce.name := H.Put(g[ce.name], m, func)]
    {
      ghost var f := View();
      ghost var bare := H.DelMagic(H.Drop(H.Drop(f[ce.name], m), n), fe);
      ghost var c := if n == m then bare else H.Put(bare, m, func);
      CleanAfterDrop(f, rank, ce.name, n, m, fe, c);
      DropFrom(ce, m);
      CleanUp(fe.scope, ce, n, fe, rank);
      MoveIn(ce, n, m, fe, func);
      ghost var g := H.CleanBelow(f, rank, ce.name, fe.scope, n, fe);
      assert View() == g[ce.name := c];
      PutInto(g, ce.name, bare, m, func);
    }
  }
}
