/**
 * Class constants of runkit_constants.c: adding, removing and redefining one,
 * with the propagation to all subclasses.
 */
module ClassConstants {
  import opened Wrappers
  import CA = ConstantArrays
  import H = Hierarchy
  import opened Coherence
  import opened MethodOps
  import opened Sweeps
  import opened MethodTables

  /** The class table after name was bound in top and, unless private, in every class below it. */
  ghost function Bound(f: H.Forest, rank: map<H.ClassId, nat>, top: H.ClassId, name: string, value: CA.Zval,
                       access: H.Access): H.Forest
    requires H.Ranked(f, rank)
  {
    map c | c in f ::
      if c == top || (access != H.PrivateToClass && H.Under(f, rank, c, top))
      then H.WithConst(f[c], name, H.Const(value, access, c, false)) else f[c]
  }

  /** The target of the subclass pass: name bound in everything below top. */
  ghost function BoundBelow(f: H.Forest, rank: map<H.ClassId, nat>, top: H.ClassId, name: string, value: CA.Zval,
                            access: H.Access): H.Forest
    requires H.Ranked(f, rank)
  {
    map c | c in f ::
      if H.Under(f, rank, c, top) then H.WithConst(f[c], name, H.Const(value, access, c, false)) else f[c]
  }

  predicate BoundAt(f: H.Forest, goal: H.Forest, name: string, value: CA.Zval, access: H.Access, c: H.ClassId) {
    c in f && c in goal && goal[c] == H.WithConst(f[c], name, H.Const(value, access, c, false))
  }

  ghost predicate IsBoundBelow(f: H.Forest, rank: map<H.ClassId, nat>, top: H.ClassId, name: string, value: CA.Zval,
                               access: H.Access, goal: H.Forest)
    requires H.Ranked(f, rank)
  {
    forall c {:trigger BoundAt(f, goal, name, value, access, c)} | c in f && H.Under(f, rank, c, top) ::
      BoundAt(f, goal, name, value, access, c)
  }

  lemma BoundBelowFacts(f: H.Forest, rank: map<H.ClassId, nat>, top: H.ClassId, name: string, value: CA.Zval,
                        access: H.Access)
    requires H.Ranked(f, rank) && top in f
    ensures var goal := BoundBelow(f, rank, top, name, value, access);
            && Shaped(f, goal) && IsBoundBelow(f, rank, top, name, value, access, goal)
            && Mix(f, goal, Below(f, rank, top)) == goal
  {
  }

  /** Class c gets the constant, defined by itself, and nothing else in it changes. */
  predicate Gets(f: H.Forest, h: H.Forest, c: H.ClassId, name: string, value: CA.Zval, access: H.Access) {
    && c in f && c in h
    && h[c] == f[c].(constants := f[c].constants[name := H.Const(value, access, c, false)])
  }

  /** top gets the constant, with every class below it unless it is private; all other classes stay. */
  ghost predicate BoundInAll(f: H.Forest, rank: map<H.ClassId, nat>, top: H.ClassId, name: string, value: CA.Zval,
                             access: H.Access, h: H.Forest)
    requires H.Ranked(f, rank)
  {
    && h.Keys == f.Keys
    && forall c | c in f ::
         if c == top || (access in {H.Public, H.Protected} && H.Under(f, rank, c, top))
         then Gets(f, h, c, name, value, access) else h[c] == f[c]
  }

  lemma BoundIsBoundInAll(f: H.Forest, rank: map<H.ClassId, nat>, top: H.ClassId, name: string, value: CA.Zval,
                          access: H.Access)
    requires H.Ranked(f, rank)
    ensures BoundInAll(f, rank, top, name, value, access, Bound(f, rank, top, name, value, access))
  {
  }

  /** strcasecmp with "class". */
  predicate ReservedName(name: string): (r: bool)
    ensures r <==> |name| == 5 && forall i | 0 <= i < 5 ::
                     name[i] == "class"[i] || name[i] as int + 32 == "class"[i] as int
  {
    |name| == 5 && name[0] in "cC" && name[1] in "lL" && name[2] in "aA" && name[3] in "sS" && name[4] in "sS"
  }

  /** php_runkit_class_constant_add_raw on one class of the table. */
  method AddRaw(e: Engine, ce: ClassEntry, cname: string, value: CA.Zval, access: H.Access) returns (ok: bool)
    requires e.Valid() && e.Holds(ce)
    modifies ce`constants
    ensures e.Valid() && ok == (cname !in old(ce.constants))
    ensures !ok ==> e.View() == old(e.View())
    ensures ok ==>
              e.View() == old(e.View())[ce.name :=
                            H.WithConst(old(ce.State()), cname, H.Const(value, access, ce.name, false))]
  {
    ok := ce.AddConstRaw(cname, value, access);
    e.OnlyChanged(ce);
    if !ok {
      e.StateOf(ce);
      assert old(e.View())[ce.name := ce.State()] == old(e.View());
    }
  }

  /** php_runkit_update_children_consts_foreach */
  method UpdateChildrenConstsForeach(e: Engine, parent: ClassEntry, cname: string, value: CA.Zval, access: H.Access,
                                     ghost f: H.Forest, ghost rank: map<H.ClassId, nat>, ghost top: H.ClassId,
                                     ghost goal: H.Forest)
    requires e.Valid() && e.Holds(parent) && H.Ranked(f, rank) && Shaped(f, e.View()) && Shaped(f, goal)
    requires Agree(f, e.View(), Below(f, rank, parent.name)) && InSubtree(f, rank, parent.name, top)
    requires IsBoundBelow(f, rank, top, cname, value, access, goal)
    modifies e.classTable.Values`constants
    ensures e.Valid() && e.View() == Mix(old(e.View()), goal, Below(f, rank, parent.name))
    decreases Above(rank, parent.name), 1
  {
    var todo, p := e.classTable.Keys, parent.name;
    ghost var v0, done: set<H.ClassId> := e.View(), {};
    ScanEnds(f, rank, p);
    MixMix(v0, goal, {}, {});
    SplitEnds(f.Keys, todo, done);
    while todo != {}
      invariant Split(f.Keys, todo, done)
      invariant e.Valid() && e.View() == Mix(v0, goal, ReachedSet(f, rank, done, p))
    {
      var d :| d in todo;
      SplitStep(f.Keys, todo, done, d);
      ScanStep(f, rank, goal, v0, done, p, d);
      UpdateChildrenConsts(e, e.classTable[d], parent, cname, value, access, f, rank, top, goal);
      todo, done := todo - {d}, done + {d};
    }
    SplitEnds(f.Keys, todo, done);
  }

  /** php_runkit_update_children_consts; the "Error updating child class" branch is dead. */
  method UpdateChildrenConsts(e: Engine, ce: ClassEntry, parent: ClassEntry, cname: string, value: CA.Zval,
                              access: H.Access,
                              ghost f: H.Forest, ghost rank: map<H.ClassId, nat>, ghost top: H.ClassId,
                              ghost goal: H.Forest)
    requires e.Valid() && e.Holds(ce) && e.Holds(parent) && H.Ranked(f, rank) && Shaped(f, e.View()) && Shaped(f, goal)
    requires Agree(f, e.View(), VisitSet(f, rank, parent.name, ce.name)) && InSubtree(f, rank, parent.name, top)
    requires IsBoundBelow(f, rank, top, cname, value, access, goal)
    modifies e.classTable.Values`constants
    ensures e.Valid() && e.View() == Mix(old(e.View()), goal, VisitSet(f, rank, parent.name, ce.name))
    decreases Above(rank, parent.name), 0
  {
    ghost var v := e.View();
    assert ParentAt(f, v, ce.name);
    MixMix(v, goal, {}, {});
    if ce.parent != parent {
      return;
    }
    VisitLast(f, rank, goal, v, parent.name, ce.name);
    /* Process children of this child */
    UpdateChildrenConstsForeach(e, ce, cname, value, access, f, rank, top, goal);
    assert BoundAt(f, goal, cname, value, access, ce.name);
    Rebind(e, ce, cname, value, access, goal);
  }

  method Rebind(e: Engine, ce: ClassEntry, cname: string, value: CA.Zval, access: H.Access, ghost goal: H.Forest)
    requires e.Valid() && e.Holds(ce) && BoundAt(e.View(), goal, cname, value, access, ce.name)
    modifies ce`constants
    ensures e.Valid() && e.View() == Mix(old(e.View()), goal, {ce.name})
  {
    ghost var v := e.View();
    e.StateOf(ce);
    ce.RebindConst(cname, value, access);
    e.OnlyChanged(ce);
    MixOne(v, goal, ce.name);
  }

  /** php_runkit_class_constant_add */
  method ClassConstantAdd(e: Engine, classname: H.ClassId, cname: string, value: CA.Zval, access: H.Access,
                          ghost rank: map<H.ClassId, nat>)
    returns (ok: bool)
    requires e.Valid() && H.Ranked(e.View(), rank)
    modifies e.classTable.Values`constants
    ensures e.Valid()
    ensures ok == (Modifiable(old(e.View()), classname) && !ReservedName(cname)
                   && cname !in old(e.View())[classname].constants)
    ensures e.View() == if ok then Bound(old(e.View()), rank, classname, cname, value, access) else old(e.View())
    ensures ok ==> BoundInAll(old(e.View()), rank, classname, cname, value, access, e.View())
  {
    ghost var f := e.View();
    BoundIsBoundInAll(f, rank, classname, cname, value, access);
    var ce := e.FetchClass(classname);
    if ce == null || ReservedName(cname) {
      return false;
    }
    ok := AddRaw(e, ce, cname, value, access);
    if !ok {
      return false;
    }
    // Don't add this constant to subclasses if this constant is private.
    if access != H.PrivateToClass {
      ghost var g := e.View();
      RankedAfterBind(f, rank, classname, cname, value, access);
      BoundBelowFacts(g, rank, classname, cname, value, access);
      ghost var goal := BoundBelow(g, rank, classname, cname, value, access);
      UpdateChildrenConstsForeach(e, ce, cname, value, access, g, rank, classname, goal);
    } else {
      assert e.View() == Bound(f, rank, classname, cname, value, access);
    }
  }

  lemma RankedAfterBind(f: H.Forest, rank: map<H.ClassId, nat>, top: H.ClassId, name: string, value: CA.Zval,
                        access: H.Access)
    requires H.Ranked(f, rank) && top in f && access != H.PrivateToClass
    ensures var g := f[top := H.WithConst(f[top], name, H.Const(value, access, top, false))];
            && H.Ranked(g, rank)
            && BoundBelow(g, rank, top, name, value, access) == Bound(f, rank, top, name, value, access)
  {
    var g := f[top := H.WithConst(f[top], name, H.Const(value, access, top, false))];
    assert H.SameParents(f, g);
    forall c | c in f ensures H.Ranked(g, rank) && H.Under(f, rank, c, top) == H.Under(g, rank, c, top) {
      SameUnder(f, g, rank, c, top);
    }
    if H.Under(f, rank, top, top) { UnderRank(f, rank, top, top); }
  }

  // ----- removing and redefining

  /** Only the class itself loses the constant; enum cases are refused. */
  ghost predicate Removable(f: H.Forest, c: H.ClassId, name: string) {
    Modifiable(f, c) && name in f[c].constants && !f[c].constants[name].enumCase
  }

  function WithoutConst(c: H.Class, name: string): H.Class {
    c.(constants := c.constants - {name})
  }

  /** Redefining removes first, and validates the new value only then. */
  ghost function RedefinedConst(f: H.Forest, rank: map<H.ClassId, nat>, c: H.ClassId, name: string, value: CA.Zval,
                                flags: Option<H.Access>, accepted: bool): (H.Forest, bool)
    requires H.Ranked(f, rank)
  {
    if !Removable(f, c, name) then (f, false)
    else if !accepted || ReservedName(name) then (f[c := WithoutConst(f[c], name)], false)
    else (Bound(f, rank, c, name, value, if flags.Some? then flags.value else f[c].constants[name].access), true)
  }

  /** php_runkit_class_constant_remove: the access the constant had, or nothing. */
  method ClassConstantRemove(e: Engine, classname: H.ClassId, cname: string) returns (was: Option<H.Access>)
    requires e.Valid()
    modifies e.classTable.Values`constants
    ensures e.Valid()
    ensures was == if Removable(old(e.View()), classname, cname)
                   then Some(old(e.View())[classname].constants[cname].access) else None
    ensures e.View() == if Removable(old(e.View()), classname, cname)
                        then old(e.View())[classname := WithoutConst(old(e.View())[classname], cname)]
                        else old(e.View())
    ensures was.Some? <==> && classname in old(e.View()) && old(e.View())[classname].kind == H.UserClass
                           && cname in old(e.View())[classname].constants
                           && !old(e.View())[classname].constants[cname].enumCase
    ensures was.Some? ==> classname in e.View() && forall n ::
              Find(e.View()[classname].constants, n)
              == if n == cname then None else Find(old(e.View())[classname].constants, n)
  {
    var ce := e.FetchClass(classname);
    if ce == null {
      return None;
    }
    e.StateOf(ce);
    if cname !in ce.constants || ce.constants[cname].enumCase {
      return None;
    }
    was := Some(ce.constants[cname].access);
    var removed := ce.RemoveConst(cname);
    e.OnlyChanged(ce);
  }

  /** A constant that may be redefined is lost exactly when the new value or the name is not acceptable. */
  lemma RedefineLoses(f: H.Forest, rank: map<H.ClassId, nat>, c: H.ClassId, name: string, value: CA.Zval,
                      flags: Option<H.Access>, accepted: bool, g: H.Forest, ok: bool)
    requires H.Ranked(f, rank) && Removable(f, c, name)
    requires (g, ok) == RedefinedConst(f, rank, c, name, value, flags, accepted)
    ensures c in g && (name !in g[c].constants <==> !accepted || ReservedName(name))
  {
  }

  /** When a redefinition succeeds, and what it then binds. */
  lemma RedefineBinds(f: H.Forest, rank: map<H.ClassId, nat>, c: H.ClassId, name: string, value: CA.Zval,
                      flags: Option<H.Access>, accepted: bool, g: H.Forest, ok: bool)
    requires H.Ranked(f, rank) && (g, ok) == RedefinedConst(f, rank, c, name, value, flags, accepted)
    ensures ok <==> && c in f && f[c].kind == H.UserClass && name in f[c].constants && !f[c].constants[name].enumCase
                    && accepted && !ReservedName(name)
    ensures ok ==> BoundInAll(f, rank, c, name, value,
                              if flags.Some? then flags.value else f[c].constants[name].access, g)
  {
    if ok {
      BoundIsBoundInAll(f, rank, c, name, value, if flags.Some? then flags.value else f[c].constants[name].access);
    }
  }

  /**
   * runkit7_constant_redefine on a class constant; `flags` are the ones passed in, if any.  An existing
   * constant is lost exactly when its new value is no constant value or its name is reserved.
   */
  method ClassConstantRedefine(e: Engine, mem: CA.Memory, classname: H.ClassId, cname: string, value: CA.Zval,
                               flags: Option<H.Access>, ghost rank: map<H.ClassId, nat>)
    returns (ok: bool)
    requires e.Valid() && H.Ranked(e.View(), rank)
    requires mem.Valid() && CA.ClosedElem(mem.arrays, value) && mem.protected == {}
    modifies e.classTable.Values`constants, mem`protected
    ensures e.Valid() && mem.protected == {}
    ensures (e.View(), ok) == RedefinedConst(old(e.View()), rank, classname, cname, value, flags,
                                             CA.IsConstantValue(mem.arrays, value))
    ensures Removable(old(e.View()), classname, cname) ==>
              && classname in e.View()
              && (cname !in e.View()[classname].constants
                  <==> !CA.IsConstantValue(mem.arrays, value) || ReservedName(cname))
    ensures ok <==> && classname in old(e.View()) && old(e.View())[classname].kind == H.UserClass
                    && cname in old(e.View())[classname].constants
                    && !old(e.View())[classname].constants[cname].enumCase
                    && CA.IsConstantValue(mem.arrays, value) && !ReservedName(cname)
    ensures ok ==> BoundInAll(old(e.View()), rank, classname, cname, value,
                              if flags.Some? then flags.value
                              else old(e.View())[classname].constants[cname].access, e.View())
  {
    ghost var f := e.View();
    ok := RemoveCheckAdd(e, mem, classname, cname, value, flags, rank);
    RedefineBinds(f, rank, classname, cname, value, flags, CA.IsConstantValue(mem.arrays, value), e.View(), ok);
    if Removable(f, classname, cname) {
      RedefineLoses(f, rank, classname, cname, value, flags, CA.IsConstantValue(mem.arrays, value), e.View(), ok);
    }
  }

  method RemoveCheckAdd(e: Engine, mem: CA.Memory, classname: H.ClassId, cname: string, value: CA.Zval,
                        flags: Option<H.Access>, ghost rank: map<H.ClassId, nat>)
    returns (ok: bool)
    requires e.Valid() && H.Ranked(e.View(), rank)
    requires mem.Valid() && CA.ClosedElem(mem.arrays, value) && mem.protected == {}
    modifies e.classTable.Values`constants, mem`protected
    ensures e.Valid() && mem.protected == {}
    ensures (e.View(), ok) == RedefinedConst(old(e.View()), rank, classname, cname, value, flags,
                                             CA.IsConstantValue(mem.arrays, value))
  {
    ghost var f := e.View();
    var was := ClassConstantRemove(e, classname, cname);
    if was.None? {
      return false;
    }
    var accepted := CheckBeside(e, mem, value);
    ok := AddIfAccepted(e, classname, cname, value, flags, was.value, accepted, f, rank);
  }

  /** The check does not touch the class table. */
  method CheckBeside(e: Engine, mem: CA.Memory, value: CA.Zval) returns (ok: bool)
    requires e.Valid() && mem.Valid() && CA.ClosedElem(mem.arrays, value) && mem.protected == {}
    modifies mem`protected
    ensures e.Valid() && e.View() == old(e.View())
    ensures mem.protected == {} && ok == CA.IsConstantValue(mem.arrays, value)
  {
    ok := mem.CheckHasConstantType(value);
  }

  /** What follows the removal and the check of the value. */
  method AddIfAccepted(e: Engine, classname: H.ClassId, cname: string, value: CA.Zval, flags: Option<H.Access>,
                       was: H.Access, accepted: bool, ghost f: H.Forest, ghost rank: map<H.ClassId, nat>)
    returns (ok: bool)
    requires e.Valid() && H.Ranked(f, rank) && Removable(f, classname, cname)
    requires was == f[classname].constants[cname].access
    requires e.View() == f[classname := WithoutConst(f[classname], cname)]
    modifies e.classTable.Values`constants
    ensures e.Valid()
    ensures (e.View(), ok) == RedefinedConst(f, rank, classname, cname, value, flags, accepted)
  {
    if !accepted {
      return false;
    }
    ok := AddAgain(e, classname, cname, value, if flags.Some? then flags.value else was, f, rank);
  }

  /** $a = []; $a[0] = &$a: the array at address 0 holds a reference to itself. */
  const LOOP: CA.Graph := map[0 := CA.PhpArray(false, [CA.Elem(CA.IntKey(0), CA.Reference(CA.Arr(0)))])]

  /** Redefining any class constant with that array fails and loses the constant. */
  lemma SelfReferenceLoses(f: H.Forest, rank: map<H.ClassId, nat>, c: H.ClassId, name: string, flags: Option<H.Access>)
    requires H.Ranked(f, rank) && Removable(f, c, name)
    ensures CA.Closed(LOOP) && CA.ClosedElem(LOOP, CA.Arr(0))
    ensures var (g, ok) := RedefinedConst(f, rank, c, name, CA.Arr(0), flags, CA.IsConstantValue(LOOP, CA.Arr(0)));
            !ok && c in g && name !in g[c].constants
  {
    assert CA.Deref(LOOP[0].elems[0].value) == CA.Arr(0);
    CA.SelfReferenceRejected(LOOP, 0);
  }

  method AddAgain(e: Engine, classname: H.ClassId, cname: string, value: CA.Zval, access: H.Access,
                  ghost f: H.Forest, ghost rank: map<H.ClassId, nat>)
    returns (ok: bool)
    requires e.Valid() && H.Ranked(f, rank) && Modifiable(f, classname)
    requires e.View() == f[classname := WithoutConst(f[classname], cname)]
    modifies e.classTable.Values`constants
    ensures e.Valid() && ok == !ReservedName(cname)
    ensures e.View() == if ok then Bound(f, rank, classname, cname, value, access) else old(e.View())
  {
    RemovedThenBound(f, rank, classname, cname, value, access);
    ok := ClassConstantAdd(e, classname, cname, value, access, rank);
  }

  /** Binding after the removal is binding. */
  lemma RemovedThenBound(f: H.Forest, rank: map<H.ClassId, nat>, c: H.ClassId, name: string, value: CA.Zval,
                         access: H.Access)
    requires H.Ranked(f, rank) && c in f
    ensures var g := f[c := WithoutConst(f[c], name)];
            && H.Ranked(g, rank) && Bound(g, rank, c, name, value, access) == Bound(f, rank, c, name, value, access)
            && (Modifiable(g, c) <==> Modifiable(f, c))
  {
    var g := f[c := WithoutConst(f[c], name)];
    assert H.SameParents(f, g);
    SameUnder(f, g, rank, c, c);
    var bf, bg := Bound(f, rank, c, name, value, access), Bound(g, rank, c, name, value, access);
    assert bf.Keys == f.Keys && bg.Keys == f.Keys;
    forall d | d in f ensures bg[d] == bf[d] { RemovedThenBoundAt(f, g, rank, c, name, value, access, d); }
  }

  lemma RemovedThenBoundAt(f: H.Forest, g: H.Forest, rank: map<H.ClassId, nat>, c: H.ClassId, name: string,
                           value: CA.Zval, access: H.Access, d: H.ClassId)
    requires H.Ranked(f, rank) && H.Ranked(g, rank) && c in f && g == f[c := WithoutConst(f[c], name)] && d in f
    ensures Bound(g, rank, c, name, value, access)[d] == Bound(f, rank, c, name, value, access)[d]
  {
    var k := H.Const(value, access, d, false);
    assert H.SameParents(f, g);
    SameUnder(f, g, rank, d, c);
    assert (f[c].constants - {name})[name := k] == f[c].constants[name := k];
  }
}
