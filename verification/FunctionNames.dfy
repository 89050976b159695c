/**
 * What calling a function by name runs: with all its clones, aliases and saved functions, the
 * function table of runkit_functions.c refines a plain dictionary from names to bodies.
 */
module FunctionNames {
  import opened Wrappers
  import opened FunctionTable
  import opened FunctionRuns

  /** What a call of n runs: a handler or the code of a user function, looked up through aliases. */
  function Resolution(s: State, n: Name): Option<Shape>
    requires Valid(s)
  {
    if n in s.table then
      assert Known(s, s.table[n]);
      Some(BodyOf(s, s.table[n]))
    else None
  }

  /** Internal functions are only touched with the override switched on. */
  predicate Open(s: State, n: Name) {
    n in s.table && s.table[n] in s.fns && (s.fns[s.table[n]].User? || s.internalOverride)
  }

  /** The entry of n in the dictionary after an operation, from the entries before. */
  ghost function Expected(s: State, op: Op, n: Name): Option<Shape>
    requires Valid(s) && Enabled(s, op)
  {
    match op
    case DoAdd(name, src) =>
      if name != "" && Lower(name) !in s.table && n == Lower(name) then Some(ShapeOf(s.fns[src])) else Resolution(s, n)
    case DoRedefine(name, src) =>
      if name != "" && Open(s, Lower(name)) && n == Lower(name) then Some(ShapeOf(s.fns[src])) else Resolution(s, n)
    case DoRemove(name) =>
      if Open(s, Lower(name)) && n == Lower(name) then None else Resolution(s, n)
    case DoRename(source, target) =>
      if !Open(s, Lower(source)) || Lower(target) in s.table then Resolution(s, n)
      else if n == Lower(target) then Resolution(s, Lower(source))
      else if n == Lower(source) then None
      else Resolution(s, n)
    case DoCopy(source, target) =>
      if Open(s, Lower(source)) && Lower(target) !in s.table && n == Lower(target) then Resolution(s, Lower(source))
      else Resolution(s, n)
    case _ => Resolution(s, n)
  }

  lemma UnboundChange(s: State, r: State, n: Name)
    requires Valid(s) && Valid(r) && Grows(s, r) && Find(r.table, n) == Find(s.table, n)
    ensures Resolution(r, n) == Resolution(s, n)
  {
    if n in s.table {
      assert Known(s, s.table[n]);
      BodyKept(s, r, s.table[n]);
      assert Find(s.table, n) == Some(s.table[n]);
    }
    assert n in r.table <==> Find(r.table, n).Some?;
    assert n in s.table <==> Find(s.table, n).Some?;
  }

  lemma CloneBody(s: State, f: FnId, internal: bool)
    requires Valid(s) && f in s.fns
    ensures var (r, c) := Clone(s, f, internal);
            Known(s, f) && Known(r, c) && BodyOf(r, c) == BodyOf(s, f)
  {
    assert Known(s, f);
  }

  lemma AddResolves(s: State, name: Name, src: FnId, n: Name)
    requires Valid(s) && src in s.fns && s.fns[src].User?
    ensures Valid(Add(s, name, src).0) && Resolution(Add(s, name, src).0, n) == Expected(s, DoAdd(name, src), n)
  {
    var (r, ok) := Add(s, name, src);
    AddEvolves(s, name, src);
    if ok && n == Lower(name) {
      var (m, f) := Clone(s, src, n in s.replaced);
      CloneBody(s, src, n in s.replaced);
      ValidTable(m, r, m.table[n := f]);
      BodyKept(m, r, f);
    } else {
      UnboundChange(s, r, n);
    }
  }

  lemma RedefineResolves(s: State, name: Name, src: FnId, n: Name)
    requires Valid(s) && src in s.fns && s.fns[src].User?
    ensures Valid(Redefine(s, name, src).0)
    ensures Resolution(Redefine(s, name, src).0, n) == Expected(s, DoRedefine(name, src), n)
  {
    RedefineGoes(s, name, src);
    if Redefine(s, name, src).1 {
      RedefineBinds(s, name, src);
      if n != Lower(name) { RedefineElsewhere(s, name, src, n); }
    }
  }

  lemma RedefineElsewhere(s: State, name: Name, src: FnId, n: Name)
    requires Valid(s) && src in s.fns && s.fns[src].User? && Redefine(s, name, src).1 && n != Lower(name)
    ensures Valid(Redefine(s, name, src).0) && Resolution(Redefine(s, name, src).0, n) == Resolution(s, n)
  {
    RedefineBinds(s, name, src);
    RedefineEvolves(s, name, src);
    UnboundChange(s, Redefine(s, name, src).0, n);
  }

  lemma RedefineBinds(s: State, name: Name, src: FnId)
    requires Valid(s) && src in s.fns && s.fns[src].User? && Redefine(s, name, src).1
    ensures var r := Redefine(s, name, src).0;
            && Valid(r) && Resolution(r, Lower(name)) == Some(ShapeOf(s.fns[src]))
            && forall j | j != Lower(name) :: Find(r.table, j) == Find(s.table, j)
  {
    FetchEvolves(s, name, true);
    var (s1, orig) := Fetch(s, name, true);
    assert ShapeKept(s, s1, src) && ShapeKept(s, s1, orig.value);
    RedefinedResolves(s1, Lower(name), src, !s1.fns[orig.value].User?);
  }

  lemma RedefineGoes(s: State, name: Name, src: FnId)
    requires Valid(s) && src in s.fns
    ensures Redefine(s, name, src).1 <==> name != "" && Open(s, Lower(name))
    ensures !Redefine(s, name, src).1 ==> Redefine(s, name, src).0 == s
  {
  }

  lemma RedefinedResolves(s: State, n: Name, src: FnId, internal: bool)
    requires Valid(s) && src in s.fns && s.fns[src].User?
    requires n in s.table && (internal <==> !s.fns[s.table[n]].User?) && (internal ==> n in s.replaced)
    ensures var r := Redefined(s, n, src, internal);
            && Valid(r) && Resolution(r, n) == Some(ShapeOf(s.fns[src]))
            && forall j | j != n :: Find(r.table, j) == Find(s.table, j)
  {
    var (s1, f) := Clone(s, src, internal);
    RedefinedEvolves(s, n, src, internal);
    CloneBody(s, src, internal);
    RedefinedGrows(s, n, src, internal, s1, f);
    BodyKept(s1, Redefined(s, n, src, internal), f);
  }

  lemma RedefinedGrows(s: State, n: Name, src: FnId, internal: bool, s1: State, f: FnId)
    requires Valid(s) && src in s.fns && (s1, f) == Clone(s, src, internal)
    ensures var r := Redefined(s, n, src, internal);
            Grows(s1, r) && n in r.table && r.table[n] == f && r.table == s1.table[n := f] && s1.table == s.table
  {
    var r := Redefined(s, n, src, internal);
    BothPassesGrow(s1, n, f);
    forall g ensures ShapeKept(s1, r, g) { assert ShapeKept(s1, FixAll(ClearAll(s1), n, f), g); }
  }

  lemma RemoveResolves(s: State, name: Name, n: Name)
    requires Valid(s)
    ensures Valid(Remove(s, name).0) && Resolution(Remove(s, name).0, n) == Expected(s, DoRemove(name), n)
  {
    var (r, ok) := Remove(s, name);
    RemoveEvolves(s, name);
    FetchEvolves(s, name, true);
    if !(ok && n == Lower(name)) {
      UnboundChange(s, r, n);
    }
  }

  lemma RenameResolves(s: State, source: Name, target: Name, n: Name)
    requires Valid(s)
    ensures Valid(Rename(s, source, target).0)
    ensures Resolution(Rename(s, source, target).0, n) == Expected(s, DoRename(source, target), n)
  {
    RenameGoes(s, source, target);
    if Rename(s, source, target).1 {
      RenameMovesBody(s, source, target);
      RenamedResolves(s, Rename(s, source, target).0, Lower(source), Lower(target), n);
    }
  }

  lemma RenameGoes(s: State, source: Name, target: Name)
    requires Valid(s)
    ensures Rename(s, source, target).1 <==> Open(s, Lower(source)) && Lower(target) !in s.table
    ensures !Rename(s, source, target).1 ==> Rename(s, source, target).0 == s
  {
  }

  lemma RenamedResolves(s: State, r: State, a: Name, b: Name, n: Name)
    requires Valid(s) && Valid(r) && RenamedTo(s, r, a, b) && b !in s.table && Grows(s, r)
    ensures Resolution(r, n) == if n == b then Resolution(s, a) else if n == a then None else Resolution(s, n)
  {
    if n != a && n != b { UnboundChange(s, r, n); }
  }

  lemma CopyResolves(s: State, source: Name, target: Name, n: Name)
    requires Valid(s)
    ensures Valid(Copy(s, source, target).0)
    ensures Resolution(Copy(s, source, target).0, n) == Expected(s, DoCopy(source, target), n)
  {
    var (r, ok) := Copy(s, source, target);
    CopyEvolves(s, source, target);
    if ok && n == Lower(target) {
      CopiedResolves(s, n, s.table[Lower(source)]);
    } else {
      UnboundChange(s, r, n);
    }
  }

  /** Whether add, remove and copy report success, and that a refused call leaves the state as it was. */
  lemma AddGoes(s: State, name: Name, src: FnId)
    requires Valid(s) && src in s.fns
    ensures Add(s, name, src).1 <==> name != "" && Lower(name) !in s.table
    ensures !Add(s, name, src).1 ==> Add(s, name, src).0 == s
  {
  }

  lemma RemoveGoes(s: State, name: Name)
    requires Valid(s)
    ensures Remove(s, name).1 <==> Open(s, Lower(name))
    ensures !Remove(s, name).1 ==> Remove(s, name).0 == s
  {
  }

  lemma CopyGoes(s: State, source: Name, target: Name)
    requires Valid(s)
    ensures Copy(s, source, target).1 <==> Open(s, Lower(source)) && Lower(target) !in s.table
    ensures !Copy(s, source, target).1 ==> Copy(s, source, target).0 == s
  {
  }

  // ----- the type of what a name is newly bound to

  /** An added function is of internal type exactly when its name once was. */
  lemma AddType(s: State, name: Name, src: FnId)
    requires Valid(s) && src in s.fns && s.fns[src].User? && Add(s, name, src).1
    ensures IsInternal(Add(s, name, src).0, Lower(name)) <==> Lower(name) in s.replaced
  {
    CloneGrows(s, src, Lower(name) in s.replaced);
  }

  /** Redefining keeps the type. */
  lemma RedefineType(s: State, name: Name, src: FnId)
    requires Valid(s) && src in s.fns && s.fns[src].User? && Redefine(s, name, src).1
    ensures IsInternal(Redefine(s, name, src).0, Lower(name)) <==> IsInternal(s, Lower(name))
  {
    FetchEvolves(s, name, true);
    var (s1, orig) := Fetch(s, name, true);
    assert ShapeKept(s, s1, src) && ShapeKept(s, s1, orig.value);
    RedefinedType(s1, Lower(name), src, !s1.fns[orig.value].User?);
  }

  lemma RedefinedType(s: State, n: Name, src: FnId, internal: bool)
    requires Valid(s) && src in s.fns && s.fns[src].User?
    ensures IsInternal(Redefined(s, n, src, internal), n) <==> internal
  {
    CloneGrows(s, src, internal);
    var (s1, f) := Clone(s, src, internal);
    BothPassesGrow(s1, n, f);
    assert ShapeKept(s1, FixAll(ClearAll(s1), n, f), f);
  }

  /** A renamed function is of internal type exactly when the new name once was, or it is no user function's alias. */
  lemma RenameType(s: State, source: Name, target: Name)
    requires Valid(s) && Rename(s, source, target).1
    ensures var a, b := Lower(source), Lower(target);
            && a in s.table && Known(s, s.table[a])
            && (IsInternal(Rename(s, source, target).0, b)
                <==> b in s.replaced || BodyOf(s, s.table[a]).OfInternal?)
  {
    var a, b := Lower(source), Lower(target);
    FetchedBody(s, source);
    var (s1, fe) := Fetch(s, source, true);
    RenamedOfType(s1, a, b, fe.value);
    assert Rename(s, source, target).0 == Renamed(s1, a, b, fe.value);
  }

  lemma FetchedBody(s: State, name: Name)
    requires Valid(s) && Fetch(s, name, true).1.Some?
    ensures var (s1, fe) := Fetch(s, name, true);
            && Lower(name) in s.table && fe.value == s.table[Lower(name)] && fe.value in s1.fns
            && Known(s, fe.value) && Known(s1, fe.value) && BodyOf(s1, fe.value) == BodyOf(s, fe.value)
            && forall n | n != Lower(name) :: n in s1.replaced <==> n in s.replaced
  {
    FetchEvolves(s, name, true);
    var (s1, fe) := Fetch(s, name, true);
    assert Known(s, fe.value);
    BodyKept(s, s1, fe.value);
  }

  lemma RenamedOfType(s: State, a: Name, b: Name, fe: FnId)
    requires Valid(s) && fe in s.fns
    ensures Known(s, fe)
    ensures IsInternal(Renamed(s, a, b, fe), b) <==> b in s.replaced || BodyOf(s, fe).OfInternal?
  {
    assert Known(s, fe);
    MovedGrows(s, fe, b in s.replaced);
    var (s1, f) := Moved(s, fe, b in s.replaced);
    var s2 := Rebind(s1, (s1.table - {a})[b := f], s1.replaced);
    SettleGrows(s2, b, f);
    assert ShapeKept(s2, Settle(s2, b, f), f);
  }

  /** A copy is of the type of its source. */
  lemma CopyType(s: State, source: Name, target: Name)
    requires Valid(s) && Copy(s, source, target).1
    ensures IsInternal(Copy(s, source, target).0, Lower(target)) <==> IsInternal(s, Lower(source))
  {
    CopiedType(s, Lower(target), s.table[Lower(source)]);
  }

  lemma CopiedResolves(s: State, b: Name, fe: FnId)
    requires Valid(s) && fe in s.fns && b !in s.table
    ensures var r := Copied(s, b, fe);
            Known(s, fe) && b in r.table && Known(r, r.table[b]) && BodyOf(r, r.table[b]) == BodyOf(s, fe)
  {
    var s1 := Misplace(s, fe, b);
    var (s2, f) := Clone(s1, fe, !s1.fns[fe].User?);
    assert Known(s, fe);
    PassesGrow(s, b, fe);
    BodyKept(s, s1, fe);
    CloneBody(s1, fe, !s1.fns[fe].User?);
    PassesGrow(s2, b, f);
    BodyKept(s2, Misplace(s2, f, b), f);
    ValidTable(Misplace(s2, f, b), Copied(s, b, fe), s2.table[b := f]);
    BodyKept(Misplace(s2, f, b), Copied(s, b, fe), f);
  }

  /** Every operation changes what names resolve to exactly as the dictionary operation does. */
  lemma StepResolves(s: State, op: Op, n: Name)
    requires Valid(s) && Enabled(s, op)
    ensures Valid(Step(s, op)) && Resolution(Step(s, op), n) == Expected(s, op, n)
  {
    match op
    case DoAdd(name, src) => AddResolves(s, name, src, n);
    case DoRedefine(name, src) => RedefineResolves(s, name, src, n);
    case DoRemove(name) => RemoveResolves(s, name, n);
    case DoRename(source, target) => RenameResolves(s, source, target, n);
    case DoCopy(source, target) => CopyResolves(s, source, target, n);
    case _ =>
      StepEvolves(s, op);
      UnboundChange(s, Step(s, op), n);
  }

  // ----- the dictionary machine

  /** Names and what they run; a body that is a handler can only be changed with the override switched on. */
  datatype Dict = Dict(bodies: map<Name, Shape>, internalOverride: bool)

  datatype DictOp =
    | PutNew(name: Name, body: Shape)
    | Replace(name: Name, body: Shape)
    | Delete(name: Name)
    | Move(source: Name, target: Name)
    | Duplicate(source: Name, target: Name)
    | Nothing

  predicate MayChange(d: Dict, n: Name) {
    n in d.bodies && (d.bodies[n].OfUser? || d.internalOverride)
  }

  function DictStep(d: Dict, op: DictOp): Dict {
    match op
    case PutNew(n, body) => if n == "" || n in d.bodies then d else d.(bodies := d.bodies[n := body])
    case Replace(n, body) => if n != "" && MayChange(d, n) then d.(bodies := d.bodies[n := body]) else d
    case Delete(n) => if MayChange(d, n) then d.(bodies := d.bodies - {n}) else d
    case Move(a, b) =>
      if MayChange(d, a) && b !in d.bodies then d.(bodies := (d.bodies - {a})[b := d.bodies[a]]) else d
    case Duplicate(a, b) => if MayChange(d, a) && b !in d.bodies then d.(bodies := d.bodies[b := d.bodies[a]]) else d
    case Nothing => d
  }

  function DictRun(d: Dict, ops: seq<DictOp>): Dict
    decreases |ops|
  {
    if ops == [] then d else DictRun(DictStep(d, ops[0]), ops[1..])
  }

  /** The call as the dictionary sees it: lower-case names, and the code instead of the closure that holds it. */
  ghost function Label(s: State, op: Op): DictOp
    requires Enabled(s, op)
  {
    match op
    case DoAdd(name, src) => PutNew(Lower(name), ShapeOf(s.fns[src]))
    case DoRedefine(name, src) => Replace(Lower(name), ShapeOf(s.fns[src]))
    case DoRemove(name) => Delete(Lower(name))
    case DoRename(source, target) => Move(Lower(source), Lower(target))
    case DoCopy(source, target) => Duplicate(Lower(source), Lower(target))
    case _ => Nothing
  }

  ghost function Labels(s: State, ops: seq<Op>): seq<DictOp>
    requires IsRun(s, ops)
    decreases |ops|
  {
    if ops == [] then [] else [Label(s, ops[0])] + Labels(Step(s, ops[0]), ops[1..])
  }

  ghost function DictOf(s: State): Dict
    requires Valid(s)
  {
    Dict(map n | n in s.table && Resolution(s, n).Some? :: Resolution(s, n).value, s.internalOverride)
  }

  /** Without the override nothing internal is ever replaced, so there are no aliases. */
  ghost predicate Locked(s: State) {
    !s.internalOverride ==>
      s.replaced == map[] && forall n | n in s.table :: s.table[n] in s.fns && !s.fns[s.table[n]].Alias?
  }

  lemma DictFind(s: State, n: Name)
    requires Valid(s)
    ensures Find(DictOf(s).bodies, n) == Resolution(s, n)
  {
  }

  lemma OpenMayChange(s: State, n: Name)
    requires Valid(s) && Locked(s)
    ensures MayChange(DictOf(s), n) <==> Open(s, n)
  {
    DictFind(s, n);
    if n in s.table { assert Known(s, s.table[n]); }
  }

  lemma {:induction false} LowerEmpty(name: Name)
    ensures Lower(name) == "" <==> name == ""
  {
    assert |Lower(name)| == |name|;
  }

  lemma StepFinds(s: State, op: Op, n: Name)
    requires Valid(s) && Enabled(s, op) && Locked(s)
    ensures Find(DictStep(DictOf(s), Label(s, op)).bodies, n) == Expected(s, op, n)
  {
    DictFind(s, n);
    match op
    case DoAdd(name, _) => LowerEmpty(name); DictFind(s, Lower(name));
    case DoRedefine(name, _) => LowerEmpty(name); OpenMayChange(s, Lower(name));
    case DoRemove(name) => OpenMayChange(s, Lower(name));
    case DoRename(a, b) => OpenMayChange(s, Lower(a)); DictFind(s, Lower(a)); DictFind(s, Lower(b));
    case DoCopy(a, b) => OpenMayChange(s, Lower(a)); DictFind(s, Lower(a)); DictFind(s, Lower(b));
    case _ =>
  }

  /** Every operation is one step of the dictionary. */
  lemma StepRefines(s: State, op: Op)
    requires Valid(s) && Enabled(s, op) && Locked(s)
    ensures Valid(Step(s, op)) && DictOf(Step(s, op)) == DictStep(DictOf(s), Label(s, op))
  {
    var r, d := Step(s, op), DictStep(DictOf(s), Label(s, op));
    StepEvolves(s, op);
    forall n ensures Find(DictOf(r).bodies, n) == Find(d.bodies, n) {
      StepResolves(s, op, n);
      StepFinds(s, op, n);
      DictFind(r, n);
    }
    SameBodies(DictOf(r).bodies, d.bodies);
  }

  lemma SameBodies(a: map<Name, Shape>, b: map<Name, Shape>)
    requires forall n :: Find(a, n) == Find(b, n)
    ensures a == b
  {
    forall n ensures n in a <==> n in b { assert (n in a) == Find(a, n).Some?; }
    forall n | n in a ensures a[n] == b[n] { assert Find(a, n) == Some(a[n]); }
  }

  // ----- runs

  lemma StepKeepsLocked(s: State, op: Op)
    requires Valid(s) && Enabled(s, op) && Locked(s)
    ensures Locked(Step(s, op))
  {
    var r := Step(s, op);
    StepEvolves(s, op);
    if !s.internalOverride {
      match op
      case DoAdd(name, src) => LockedAdd(s, name, src);
      case DoRedefine(name, src) => LockedRedefine(s, name, src);
      case DoRemove(name) => LockedRemove(s, name);
      case DoRename(source, target) => LockedRename(s, source, target);
      case DoCopy(source, target) => LockedCopy(s, source, target);
      case _ =>
    }
  }

  lemma LockedAdd(s: State, name: Name, src: FnId)
    requires Valid(s) && Locked(s) && !s.internalOverride && src in s.fns && s.fns[src].User?
    ensures Locked(Add(s, name, src).0)
  {
    CloneGrows(s, src, false);
  }

  lemma LockedRedefine(s: State, name: Name, src: FnId)
    requires Valid(s) && Locked(s) && !s.internalOverride && src in s.fns && s.fns[src].User?
    ensures Locked(Redefine(s, name, src).0)
  {
    var n := Lower(name);
    if Redefine(s, name, src).1 {
      RedefinedEvolves(s, n, src, false);
      LockedRebound(s, Redefined(s, n, src, false), n);
      CloneGrows(s, src, false);
      RedefinedGrows(s, n, src, false, Clone(s, src, false).0, Clone(s, src, false).1);
      assert ShapeKept(Clone(s, src, false).0, Redefined(s, n, src, false), Clone(s, src, false).1);
    }
  }

  /** Only n is bound otherwise, and nothing was saved. */
  lemma LockedRebound(s: State, r: State, n: Name)
    requires Valid(s) && Locked(s) && !s.internalOverride && Grows(s, r)
    requires forall j | j in r.table && j != n :: j in s.table && r.table[j] == s.table[j]
    ensures forall j | j in r.table && j != n :: r.table[j] in r.fns && !r.fns[r.table[j]].Alias?
  {
    forall j | j in r.table && j != n ensures r.table[j] in r.fns && !r.fns[r.table[j]].Alias? {
      assert ShapeKept(s, r, s.table[j]);
    }
  }

  lemma LockedRemove(s: State, name: Name)
    requires Valid(s) && Locked(s) && !s.internalOverride
    ensures Locked(Remove(s, name).0)
  {
    RemoveEvolves(s, name);
    LockedRebound(s, Remove(s, name).0, "");
    if "" in s.table { assert ShapeKept(s, Remove(s, name).0, s.table[""]); }
  }

  lemma LockedRename(s: State, source: Name, target: Name)
    requires Valid(s) && Locked(s) && !s.internalOverride
    ensures Locked(Rename(s, source, target).0)
  {
    var a, b := Lower(source), Lower(target);
    RenameGoes(s, source, target);
    if Rename(s, source, target).1 {
      var fe := s.table[a];
      var (s1, f) := Clone(s, fe, false);
      RenamedEvolves(s, a, b, fe);
      CloneGrows(s, fe, false);
      LockedRebound(s, Renamed(s, a, b, fe), b);
      var s2 := Rebind(s1, (s1.table - {a})[b := f], s1.replaced);
      SettleGrows(s2, b, f);
      assert ShapeKept(s2, Renamed(s, a, b, fe), f);
    }
  }

  lemma LockedCopy(s: State, source: Name, target: Name)
    requires Valid(s) && Locked(s) && !s.internalOverride
    ensures Locked(Copy(s, source, target).0)
  {
  }

  /** Over every run the function table does what the dictionary does. */
  lemma {:induction false} RunRefines(s: State, ops: seq<Op>)
    requires Valid(s) && Locked(s) && IsRun(s, ops)
    ensures Valid(Outcome(s, ops)) && DictOf(Outcome(s, ops)) == DictRun(DictOf(s), Labels(s, ops))
    decreases |ops|
  {
    if ops != [] {
      StepRefines(s, ops[0]);
      StepKeepsLocked(s, ops[0]);
      RunRefines(Step(s, ops[0]), ops[1..]);
      assert Labels(s, ops)[1..] == Labels(Step(s, ops[0]), ops[1..]);
    }
  }
}
