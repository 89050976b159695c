/**
 * Runs of the function operations of runkit_functions.c: what request shutdown gives back,
 * and what renaming keeps.
 */
module FunctionRuns {
  import opened Wrappers
  import opened FunctionTable

  /** An operation, or what the engine does between operations. */
  datatype Op =
    | DoAdd(name: Name, src: FnId)
    | DoRedefine(name: Name, src: FnId)
    | DoRemove(name: Name)
    | DoRename(source: Name, target: Name)
    | DoCopy(source: Name, target: Name)
    | Call(name: Name)
    | Invoke(f: FnId)
    | Return
    | Born(code: Code, sites: seq<Site>)
    | Gone(f: FnId)

  /** The functions a call can enter: those the passes reach and those behind an alias in the table. */
  ghost predicate Callable(s: State, f: FnId) {
    && f in s.fns && s.fns[f].User?
    && (Visited(s, f) || exists n | n in s.table && s.table[n] in s.fns :: s.fns[s.table[n]] == Alias(f))
  }

  /** The user function whose frame a call of g pushes; internal functions push none that the passes look at. */
  function Entered(s: State, g: FnId): Option<FnId> {
    if g !in s.fns then None
    else match s.fns[g]
      case Internal(_) => None
      case Alias(inner) => Some(inner)
      case User(_, _, _) => Some(g)
  }

  /** What the running function finds for a name: its runtime cache comes before the table. */
  function Found(s: State, name: Name): Option<FnId> {
    if s.stack == [] then None
    else
      var f := s.stack[|s.stack| - 1];
      if f in s.fns && s.fns[f].User? && name in s.fns[f].cache then Some(s.fns[f].cache[name]) else Find(s.table, name)
  }

  /**
   * New code comes from closures around user functions.  The running function calls by name; callbacks,
   * methods and closures are invoked by the engine, without a cache.
   */
  ghost predicate Enabled(s: State, op: Op) {
    match op
    case DoAdd(_, src) => src in s.fns && s.fns[src].User?
    case DoRedefine(_, src) => src in s.fns && s.fns[src].User?
    case Call(name) => Found(s, name).Some?
    case Invoke(f) => Callable(s, f)
    case Return => s.stack != []
    case _ => true
  }

  /** The function found is kept in the caller's runtime cache. */
  function Remember(s: State, f: FnId, name: Name): (r: State)
    requires Valid(s) && f in s.fns && s.fns[f].User? && (name in s.fns[f].cache || name in s.table)
    ensures Valid(r)
  {
    var obj := s.fns[f];
    var r := if name in obj.cache then s else s.(fns := s.fns[f := obj.(cache := obj.cache[name := s.table[name]])]);
    assert forall g :: g in r.fns ==> Known(s, g) && Known(r, g);
    r
  }

  function Push(s: State, f: FnId): (r: State)
    requires Valid(s) && f in s.fns && s.fns[f].User?
    ensures Valid(r)
  {
    var r := s.(stack := s.stack + [f]);
    assert forall g :: g in r.fns ==> Known(s, g) && Known(r, g);
    r
  }

  function Pop(s: State): (r: State)
    requires Valid(s) && s.stack != []
    ensures Valid(r)
  {
    var r := s.(stack := s.stack[..|s.stack| - 1]);
    assert forall g :: g in r.fns ==> Known(s, g) && Known(r, g);
    r
  }

  /** A call by name from the running function. */
  function CallName(s: State, name: Name): (r: State)
    requires Valid(s) && Found(s, name).Some?
    ensures Valid(r)
  {
    var f := s.stack[|s.stack| - 1];
    assert f in s.stack;
    var s1 := Remember(s, f, name);
    match Entered(s, Found(s, name).value)
    case None => s1
    case Some(g) =>
      assert Known(s, Found(s, name).value);
      Push(s1, g)
  }

  function BornClosure(s: State, code: Code, sites: seq<Site>): (r: State)
    requires Valid(s)
    ensures Valid(r)
  {
    var s1 := Alloc(s, User(code, sites, map[]));
    var r := s1.(others := s1.others + {s.free});
    assert forall g :: g in r.fns ==> Known(s1, g) && Known(r, g);
    r
  }

  function GoneFunction(s: State, f: FnId): (r: State)
    requires Valid(s)
    ensures Valid(r)
  {
    var r := s.(others := s.others - {f});
    assert forall g :: g in r.fns ==> Known(s, g) && Known(r, g);
    r
  }

  ghost function Step(s: State, op: Op): (r: State)
    requires Valid(s) && Enabled(s, op)
  {
    match op
    case DoAdd(name, src) => Add(s, name, src).0
    case DoRedefine(name, src) => Redefine(s, name, src).0
    case DoRemove(name) => Remove(s, name).0
    case DoRename(source, target) => Rename(s, source, target).0
    case DoCopy(source, target) => Copy(s, source, target).0
    case Call(name) => CallName(s, name)
    case Invoke(f) => Push(s, f)
    case Return => Pop(s)
    case Born(code, sites) => BornClosure(s, code, sites)
    case Gone(f) => GoneFunction(s, f)
  }

  // ----- what the passes leave alone

  /** What of a function no pass changes. */
  datatype Shape = OfInternal(handler: nat) | OfUser(code: Code) | OfAlias(inner: FnId)

  function ShapeOf(obj: Obj): Shape {
    match obj
    case Internal(h) => OfInternal(h)
    case User(c, _, _) => OfUser(c)
    case Alias(i) => OfAlias(i)
  }

  predicate ShapeKept(s: State, r: State, f: FnId) {
    f in s.fns ==> f in r.fns && ShapeOf(r.fns[f]) == ShapeOf(s.fns[f])
  }

  /** r has every function of s, unchanged but for stack sizes and caches. */
  ghost predicate Grows(s: State, r: State) {
    r.internalOverride == s.internalOverride && forall f :: ShapeKept(s, r, f)
  }

  lemma GrowsTwice(s: State, m: State, r: State)
    requires Grows(s, m) && Grows(m, r)
    ensures Grows(s, r)
  {
    forall f ensures ShapeKept(s, r, f) { assert ShapeKept(s, m, f) && ShapeKept(m, r, f); }
  }

  lemma PassesGrow(s: State, n: Name, f: FnId)
    requires Valid(s) && f in s.fns
    ensures Grows(s, FixAll(s, n, f)) && Grows(s, ClearAll(s))
    ensures Grows(s, Misplace(s, f, n))
  {
  }

  lemma AllocGrows(s: State, obj: Obj)
    requires Valid(s) && (obj.Alias? ==> obj.inner in s.fns && s.fns[obj.inner].User?)
    ensures Grows(s, Alloc(s, obj))
  {
  }

  /** A clone is a new function, of the shape asked for. */
  lemma CloneGrows(s: State, f: FnId, internal: bool)
    requires Valid(s) && f in s.fns
    ensures var (r, c) := Clone(s, f, internal);
            && Grows(s, r) && c !in s.fns && r == s.(fns := r.fns, free := r.free)
            && (r.fns[c].User? <==> s.fns[f].User? && !internal)
  {
    AllocGrows(s, ClearObj(s.fns[f]));
  }

  /** The code or handler that runs when f is called, behind an alias too. */
  function BodyOf(s: State, f: FnId): Shape
    requires Known(s, f)
  {
    if s.fns[f].Alias? then ShapeOf(s.fns[s.fns[f].inner]) else ShapeOf(s.fns[f])
  }

  lemma BodyKept(s: State, r: State, f: FnId)
    requires Grows(s, r) && Known(s, f)
    ensures Known(r, f) && BodyOf(r, f) == BodyOf(s, f)
  {
    assert ShapeKept(s, r, f);
    if s.fns[f].Alias? { assert ShapeKept(s, r, s.fns[f].inner); }
  }

  predicate IsInternal(s: State, n: Name) {
    n in s.table && s.table[n] in s.fns && !s.fns[s.table[n]].User?
  }

  /**
   * How an operation may change what is recorded for a name: saved clones stay, a clone is saved only of
   * what the name was bound to, an internal binding without a saved clone is not touched, and a name newly
   * bound to an internal function is recorded.
   */
  predicate Evolves(s: State, r: State, n: Name) {
    && (n in s.misplaced ==> n in r.misplaced)
    && (n in s.replaced ==> n in r.replaced && r.replaced[n] == s.replaced[n])
    && (n in r.replaced && n !in s.replaced ==>
          && IsInternal(s, n) && r.replaced[n] in r.fns
          && ShapeOf(r.fns[r.replaced[n]]) == ShapeOf(s.fns[s.table[n]]))
    && (IsInternal(s, n) && n !in r.replaced ==>
          n in r.table && r.table[n] == s.table[n] && (n in r.misplaced ==> n in s.misplaced))
    && (IsInternal(r, n) ==> n in r.replaced || n in r.misplaced || IsInternal(s, n))
  }

  ghost predicate AllEvolve(s: State, r: State) {
    Grows(s, r) && forall n :: Evolves(s, r, n)
  }

  lemma FetchEvolves(s: State, name: Name, change: bool)
    requires Valid(s)
    ensures var (r, fe) := Fetch(s, name, change);
            && AllEvolve(s, r) && r.table == s.table && r.misplaced == s.misplaced
            && r.others == s.others && r.stack == s.stack
            && (fe.Some? ==> Lower(name) in s.table && fe.value == s.table[Lower(name)])
            && (fe.Some? && change && !s.fns[fe.value].User? ==> Lower(name) in r.replaced)
  {
    var (r, fe) := Fetch(s, name, change);
    forall f ensures ShapeKept(s, r, f) {}
    forall n ensures Evolves(s, r, n) {}
  }

  lemma EvolvesTwice(s: State, m: State, r: State)
    requires AllEvolve(s, m) && AllEvolve(m, r) && m.table == s.table && Valid(s)
    ensures AllEvolve(s, r)
  {
    GrowsTwice(s, m, r);
    forall n ensures Evolves(s, r, n) {
      assert Evolves(s, m, n) && Evolves(m, r, n);
      if n in s.table { assert ShapeKept(s, m, s.table[n]); }
      if n in m.replaced && m.replaced[n] in m.fns { assert ShapeKept(m, r, m.replaced[n]); }
    }
  }

  /** How name n may be rebound after the fetch. */
  predicate ReboundAt(s: State, r: State, n: Name) {
    && (n in s.misplaced ==> n in r.misplaced)
    && (n in r.misplaced && n !in s.misplaced ==> n !in s.table)
    && (Find(r.table, n) == Find(s.table, n) ||
        ((IsInternal(s, n) ==> n in s.replaced) && (IsInternal(r, n) ==> n in s.replaced || n in r.misplaced)))
  }

  lemma ReboundEvolves(s: State, r: State)
    requires Valid(s) && Grows(s, r) && r.replaced == s.replaced
    requires forall n :: ReboundAt(s, r, n)
    ensures AllEvolve(s, r)
  {
    forall n ensures Evolves(s, r, n) {
      assert ReboundAt(s, r, n);
      if n in s.table {
        assert ShapeKept(s, r, s.table[n]);
        assert Find(s.table, n) == Some(s.table[n]);
      } else {
        assert Find(s.table, n) == None;
      }
      if n in r.table { assert Find(r.table, n) == Some(r.table[n]); }
    }
  }

  // ----- every operation evolves

  lemma AddEvolves(s: State, name: Name, src: FnId)
    requires Valid(s) && src in s.fns && s.fns[src].User?
    ensures Valid(Add(s, name, src).0) && AllEvolve(s, Add(s, name, src).0)
  {
    var n := Lower(name);
    var (r, ok) := Add(s, name, src);
    CloneGrows(s, src, n in s.replaced);
    var (m, f) := Clone(s, src, n in s.replaced);
    if ok {
      ValidTable(m, r, m.table[n := f]);
      forall g ensures ShapeKept(s, r, g) { assert ShapeKept(s, m, g); }
    } else {
      forall g ensures ShapeKept(s, r, g) {}
    }
    forall j ensures ReboundAt(s, r, j) {}
    ReboundEvolves(s, r);
  }

  lemma ValidTable(m: State, r: State, table: map<Name, FnId>)
    requires Valid(m) && r == m.(table := table) && forall n | n in table :: table[n] in m.fns
    ensures Valid(r) && Grows(m, r)
  {
    assert forall g :: g in r.fns ==> Known(m, g) && Known(r, g);
    forall g ensures ShapeKept(m, r, g) {}
  }

  lemma SameEvolves(s: State)
    requires Valid(s)
    ensures AllEvolve(s, s)
  {
    forall g ensures ShapeKept(s, s, g) {}
    forall j ensures Evolves(s, s, j) {}
  }

  lemma RedefineEvolves(s: State, name: Name, src: FnId)
    requires Valid(s) && src in s.fns && s.fns[src].User?
    ensures Valid(Redefine(s, name, src).0) && AllEvolve(s, Redefine(s, name, src).0)
  {
    var n := Lower(name);
    FetchEvolves(s, name, true);
    var (s1, orig) := Fetch(s, name, true);
    if name == "" || orig.None? {
      SameEvolves(s);
    } else {
      assert ShapeKept(s, s1, src) && ShapeKept(s, s1, orig.value);
      RedefinedEvolves(s1, n, src, !s1.fns[orig.value].User?);
      EvolvesTwice(s, s1, Redefined(s1, n, src, !s1.fns[orig.value].User?));
    }
  }

  lemma BothPassesGrow(s: State, n: Name, f: FnId)
    requires Valid(s) && f in s.fns
    ensures Grows(s, FixAll(ClearAll(s), n, f))
  {
    PassesGrow(s, n, f);
    PassesGrow(ClearAll(s), n, f);
    GrowsTwice(s, ClearAll(s), FixAll(ClearAll(s), n, f));
  }

  lemma RedefinedEvolves(s: State, n: Name, src: FnId, internal: bool)
    requires Valid(s) && src in s.fns && s.fns[src].User?
    requires n in s.table && (internal <==> !s.fns[s.table[n]].User?) && (internal ==> n in s.replaced)
    ensures Valid(Redefined(s, n, src, internal)) && AllEvolve(s, Redefined(s, n, src, internal))
    ensures var r := Redefined(s, n, src, internal);
            n in r.table && r.table == s.table[n := r.table[n]] && (internal ==> IsInternal(r, n))
  {
    CloneGrows(s, src, internal);
    var (s1, f) := Clone(s, src, internal);
    var s2 := FixAll(ClearAll(s1), n, f);
    BothPassesGrow(s1, n, f);
    GrowsTwice(s, s1, s2);
    BindEvolves(s, s1, s2, n, f);
    assert ShapeKept(s1, s2, f);
  }

  /** Binding n to f once the functions were cloned and the passes were made. */
  lemma BindEvolves(s: State, m: State, p: State, n: Name, f: FnId)
    requires Valid(s) && Valid(p) && Grows(s, p) && Grows(m, p) && f in m.fns
    requires p == s.(fns := p.fns, free := p.free)
    requires IsInternal(s, n) ==> n in s.replaced
    requires m.fns[f].User? || n in s.replaced
    ensures Valid(p.(table := p.table[n := f])) && AllEvolve(s, p.(table := p.table[n := f]))
  {
    var r := p.(table := p.table[n := f]);
    assert ShapeKept(m, p, f);
    ValidTable(p, r, p.table[n := f]);
    GrowsTwice(s, p, r);
    forall j ensures ReboundAt(s, r, j) {}
    ReboundEvolves(s, r);
  }

  lemma RemoveEvolves(s: State, name: Name)
    requires Valid(s)
    ensures Valid(Remove(s, name).0) && AllEvolve(s, Remove(s, name).0)
  {
    var n := Lower(name);
    FetchEvolves(s, name, true);
    var (s1, fe) := Fetch(s, name, true);
    if fe.Some? {
      var s2 := s1.(table := s1.table - {n});
      ValidTable(s1, s2, s1.table - {n});
      PassesGrow(s2, n, fe.value);
      GrowsTwice(s1, s2, ClearAll(s2));
      forall j ensures ReboundAt(s1, ClearAll(s2), j) {
        if j in s1.table { assert ShapeKept(s1, ClearAll(s2), s1.table[j]); }
      }
      assert ShapeKept(s, s1, fe.value);
      ReboundEvolves(s1, ClearAll(s2));
      EvolvesTwice(s, s1, ClearAll(s2));
    }
  }

  lemma MovedGrows(s: State, f: FnId, internal: bool)
    requires Valid(s) && f in s.fns
    ensures var (r, g) := Moved(s, f, internal);
            && Grows(s, r) && r == s.(fns := r.fns, free := r.free)
            && (internal ==> !r.fns[g].User?)
            && Known(s, f) && Known(r, g) && BodyOf(r, g) == BodyOf(s, f)
  {
    CloneGrows(s, f, internal);
    forall g ensures ShapeKept(s, s, g) {}
    assert Known(s, f);
  }

  lemma RenameEvolves(s: State, source: Name, target: Name)
    requires Valid(s)
    ensures Valid(Rename(s, source, target).0) && AllEvolve(s, Rename(s, source, target).0)
  {
    var a, b := Lower(source), Lower(target);
    FetchEvolves(s, source, true);
    var (s1, fe) := Fetch(s, source, true);
    if b in s.table {
      SameEvolves(s);
    } else if fe.Some? {
      assert ShapeKept(s, s1, fe.value);
      RenamedEvolves(s1, a, b, fe.value);
      EvolvesTwice(s, s1, Renamed(s1, a, b, fe.value));
    }
  }

  lemma RenamedEvolves(s: State, a: Name, b: Name, fe: FnId)
    requires Valid(s) && fe in s.fns && a in s.table && s.table[a] == fe && b !in s.table
    requires IsInternal(s, a) ==> a in s.replaced
    ensures Valid(Renamed(s, a, b, fe)) && AllEvolve(s, Renamed(s, a, b, fe))
    ensures RenamedTo(s, Renamed(s, a, b, fe), a, b)
  {
    MovedGrows(s, fe, b in s.replaced);
    var (s1, f) := Moved(s, fe, b in s.replaced);
    var s2 := Rebind(s1, (s1.table - {a})[b := f], s1.replaced);
    var r := Settle(s2, b, f);
    ValidTable(s1, s2, s2.table);
    SettleGrows(s2, b, f);
    GrowsTwice(s, s1, s2);
    GrowsTwice(s, s2, r);
    assert ShapeKept(s2, r, f);
    RenamedRebound(s, r, a, b, f);
    ReboundEvolves(s, r);
    BodyKept(s2, r, f);
  }

  /** The function of a, and no other, has moved to b. */
  ghost predicate RenamedTo(s: State, r: State, a: Name, b: Name) {
    && a in s.table && b in r.table && Known(s, s.table[a]) && Known(r, r.table[b])
    && r.table == (s.table - {a})[b := r.table[b]]
    && BodyOf(r, r.table[b]) == BodyOf(s, s.table[a])
    && (b in s.replaced ==> IsInternal(r, b))
    && r.internalOverride == s.internalOverride
  }

  lemma RenamedRebound(s: State, r: State, a: Name, b: Name, f: FnId)
    requires a in s.table && b !in s.table && r.table == (s.table - {a})[b := f] && f in r.fns
    requires IsInternal(s, a) ==> a in s.replaced
    requires r.misplaced == if r.fns[f].User? then s.misplaced else s.misplaced + [b]
    ensures forall j :: ReboundAt(s, r, j)
  {
    forall j ensures ReboundAt(s, r, j) {}
  }

  lemma SettleGrows(s: State, b: Name, f: FnId)
    requires Valid(s) && f in s.fns
    ensures Grows(s, Settle(s, b, f))
    ensures Settle(s, b, f)
         == s.(fns := Settle(s, b, f).fns, misplaced := if s.fns[f].User? then s.misplaced else s.misplaced + [b])
  {
    PassesGrow(s, b, f);
    var s1 := FixAll(s, b, f);
    assert ShapeKept(s, s1, f);
    PassesGrow(s1, b, f);
    var s2 := Misplace(s1, f, b);
    PassesGrow(s2, b, f);
    GrowsTwice(s, s1, s2);
    GrowsTwice(s, s2, ClearAll(s2));
  }

  lemma CopyEvolves(s: State, source: Name, target: Name)
    requires Valid(s)
    ensures Valid(Copy(s, source, target).0) && AllEvolve(s, Copy(s, source, target).0)
  {
    var b := Lower(target);
    if b !in s.table && Fetch(s, source, false).1.Some? {
      CopiedEvolves(s, b, Fetch(s, source, false).1.value);
    } else {
      SameEvolves(s);
    }
  }

  lemma CopiedEvolves(s: State, b: Name, fe: FnId)
    requires Valid(s) && fe in s.fns && b !in s.table
    ensures Valid(Copied(s, b, fe)) && AllEvolve(s, Copied(s, b, fe))
  {
    var s1 := Misplace(s, fe, b);
    PassesGrow(s, b, fe);
    CloneGrows(s1, fe, !s1.fns[fe].User?);
    var (s2, f) := Clone(s1, fe, !s1.fns[fe].User?);
    var s3 := Misplace(s2, f, b);
    GrowsTwice(s, s1, s2);
    PassesGrow(s2, b, f);
    ValidTable(s3, Copied(s, b, fe), s2.table[b := f]);
    GrowsTwice(s, s2, s3);
    GrowsTwice(s, s3, Copied(s, b, fe));
    CopiedRebound(s, Copied(s, b, fe), b, f);
    ReboundEvolves(s, Copied(s, b, fe));
  }

  lemma CopiedRebound(s: State, r: State, b: Name, f: FnId)
    requires b !in s.table && r.table == s.table[b := f] && f in r.fns
    requires r.misplaced == if r.fns[f].User? then s.misplaced else s.misplaced + [b] + [b]
    ensures forall j :: ReboundAt(s, r, j)
  {
    forall j ensures ReboundAt(s, r, j) {}
  }

  lemma StepEvolves(s: State, op: Op)
    requires Valid(s) && Enabled(s, op)
    ensures Valid(Step(s, op)) && AllEvolve(s, Step(s, op))
  {
    match op
    case DoAdd(name, src) => AddEvolves(s, name, src);
    case DoRedefine(name, src) => RedefineEvolves(s, name, src);
    case DoRemove(name) => RemoveEvolves(s, name);
    case DoRename(source, target) => RenameEvolves(s, source, target);
    case DoCopy(source, target) => CopyEvolves(s, source, target);
    case _ => EngineEvolves(s, op);
  }

  /** Only copy and rename record a misplaced name, and only the name they newly bind to an internal function. */
  lemma StepMisplaces(s: State, op: Op)
    requires Valid(s) && Enabled(s, op)
    ensures var r := Step(s, op);
            r.misplaced == s.misplaced + if op.DoRename? && r.table != s.table && IsInternal(r, Lower(op.target))
                                         then [Lower(op.target)]
                                         else if op.DoCopy? && r.table != s.table && IsInternal(r, Lower(op.target))
                                         then [Lower(op.target), Lower(op.target)]
                                         else []
  {
    match op
    case DoRename(source, target) => RenameMisplaces(s, source, target);
    case DoCopy(source, target) => CopyMisplaces(s, source, target);
    case _ =>
  }

  lemma RenameMisplaces(s: State, source: Name, target: Name)
    requires Valid(s)
    ensures var r, b := Rename(s, source, target).0, Lower(target);
            r.misplaced == s.misplaced + if r.table != s.table && IsInternal(r, b) then [b] else []
  {
    var a, b := Lower(source), Lower(target);
    var (s1, fe) := Fetch(s, source, true);
    FetchEvolves(s, source, true);
    if b !in s.table && fe.Some? {
      RenamedMisplaces(s1, a, b, fe.value);
    }
  }

  lemma RenamedMisplaces(s: State, a: Name, b: Name, fe: FnId)
    requires Valid(s) && fe in s.fns
    ensures var r := Renamed(s, a, b, fe);
            && b in r.table && r.replaced == s.replaced
            && r.misplaced == s.misplaced + if IsInternal(r, b) then [b] else []
  {
    MovedGrows(s, fe, b in s.replaced);
    var (s2, f) := Moved(s, fe, b in s.replaced);
    var s3 := Rebind(s2, (s2.table - {a})[b := f], s2.replaced);
    SettleGrows(s3, b, f);
    assert ShapeKept(s3, Settle(s3, b, f), f);
  }

  lemma CopyMisplaces(s: State, source: Name, target: Name)
    requires Valid(s)
    ensures var r, b := Copy(s, source, target).0, Lower(target);
            r.misplaced == s.misplaced + if r.table != s.table && IsInternal(r, b) then [b, b] else []
  {
    var b := Lower(target);
    var (s1, fe) := Fetch(s, source, false);
    if b !in s.table && fe.Some? {
      CloneGrows(Misplace(s1, fe.value, b), fe.value, !s1.fns[fe.value].User?);
      assert b in Copied(s1, b, fe.value).table;
      assert s.misplaced + [b] + [b] == s.misplaced + [b, b];
    }
  }

  /** What the engine does between operations binds nothing. */
  predicate ByEngine(op: Op) {
    op.Call? || op.Invoke? || op.Return? || op.Born? || op.Gone?
  }

  lemma EngineEvolves(s: State, op: Op)
    requires Valid(s) && Enabled(s, op) && ByEngine(op)
    ensures Valid(Step(s, op)) && AllEvolve(s, Step(s, op)) && Step(s, op).table == s.table
  {
    EngineGrows(s, op);
    NoneRebound(s, Step(s, op));
  }

  lemma EngineGrows(s: State, op: Op)
    requires Valid(s) && Enabled(s, op) && ByEngine(op)
    ensures var r := Step(s, op);
            && Valid(r) && Grows(s, r)
            && r.table == s.table && r.replaced == s.replaced && r.misplaced == s.misplaced
  {
    forall g ensures ShapeKept(s, Step(s, op), g) {}
  }

  lemma NoneRebound(s: State, r: State)
    requires Valid(s) && Grows(s, r) && r.table == s.table && r.replaced == s.replaced && r.misplaced == s.misplaced
    ensures AllEvolve(s, r)
  {
    forall j ensures ReboundAt(s, r, j) { if j in s.table { assert ShapeKept(s, r, s.table[j]); } }
    ReboundEvolves(s, r);
  }

  // ----- runs and request shutdown

  ghost predicate IsRun(s: State, ops: seq<Op>)
    decreases |ops|
  {
    ops == [] || (Valid(s) && Enabled(s, ops[0]) && IsRun(Step(s, ops[0]), ops[1..]))
  }

  ghost function Outcome(s: State, ops: seq<Op>): State
    requires IsRun(s, ops)
    decreases |ops|
  {
    if ops == [] then s else Outcome(Step(s, ops[0]), ops[1..])
  }

  /** What is known of name n when the request started in s0 and s is reached. */
  predicate SavedAt(s0: State, s: State, n: Name) {
    && (IsInternal(s0, n) ==>
          if n in s.replaced then s.replaced[n] in s.fns
            && ShapeOf(s.fns[s.replaced[n]]) == ShapeOf(s0.fns[s0.table[n]])
          else n in s.table && s.table[n] == s0.table[n] && n !in s.misplaced)
    && (IsInternal(s, n) ==> IsInternal(s0, n) || n in s.replaced || n in s.misplaced)
  }

  ghost predicate Saved(s0: State, s: State) {
    Valid(s) && Grows(s0, s) && forall n :: SavedAt(s0, s, n)
  }

  lemma StartSaved(s: State)
    requires Valid(s) && s.replaced == map[] && s.misplaced == []
    ensures Saved(s, s)
  {
    SameEvolves(s);
    forall n ensures SavedAt(s, s, n) {}
  }

  lemma StepSaves(s0: State, s: State, op: Op)
    requires Saved(s0, s) && Enabled(s, op)
    ensures Saved(s0, Step(s, op))
  {
    var r := Step(s, op);
    StepEvolves(s, op);
    GrowsTwice(s0, s, r);
    forall n ensures SavedAt(s0, r, n) {
      assert SavedAt(s0, s, n) && Evolves(s, r, n);
      if n in s.replaced { assert ShapeKept(s, r, s.replaced[n]); }
      if IsInternal(s0, n) { assert ShapeKept(s0, s, s0.table[n]) && ShapeKept(s0, r, s0.table[n]); }
    }
  }

  lemma {:induction false} RunSaves(s0: State, s: State, ops: seq<Op>)
    requires Saved(s0, s) && IsRun(s, ops)
    ensures Saved(s0, Outcome(s, ops))
    decreases |ops|
  {
    if ops != [] {
      StepSaves(s0, s, ops[0]);
      RunSaves(s0, Step(s, ops[0]), ops[1..]);
    }
  }

  lemma {:induction false} WipeAt(table: map<Name, FnId>, misplaced: seq<Name>, n: Name)
    ensures Find(Wipe(table, misplaced), n) == if n in misplaced && n != "" then None else Find(table, n)
    decreases |misplaced|
  {
    if misplaced != [] {
      var rest := if misplaced[0] == "" then table else table - {misplaced[0]};
      WipeAt(rest, misplaced[1..], n);
      assert misplaced == [misplaced[0]] + misplaced[1..];
    }
  }

  /**
   * Whatever a request does, shutdown under FPM leaves every name that was internal at its start bound to
   * that internal function, and no other name but those of saved functions (and "") bound to an internal one.
   */
  lemma ShutdownRestores(s: State, ops: seq<Op>, n: Name)
    requires Valid(s) && s.replaced == map[] && s.misplaced == [] && IsRun(s, ops)
    ensures var before := Outcome(s, ops);
            var after := Shutdown(before, true);
            && (IsInternal(s, n) && n != "" ==>
                  n in after.table && after.table[n] in after.fns
                  && ShapeOf(after.fns[after.table[n]]) == ShapeOf(s.fns[s.table[n]]))
            && (IsInternal(after, n) ==> IsInternal(s, n) || n in before.replaced || n == "")
  {
    var before := Outcome(s, ops);
    var after := Shutdown(before, true);
    StartSaved(s);
    RunSaves(s, s, ops);
    assert SavedAt(s, before, n);
    WipeAt(before.table, before.misplaced, n);
    RestoredFind(Wipe(before.table, before.misplaced), before.replaced, n);
    if IsInternal(s, n) { assert ShapeKept(s, before, s.table[n]); }
    assert n in after.table <==> Find(after.table, n).Some?;
    assert n in before.table <==> Find(before.table, n).Some?;
  }

  /** What shutdown binds: the saved clone under FPM, nothing to a misplaced name, else what was bound; "" stays. */
  lemma ShutdownFinds(s: State, fpm: bool, n: Name)
    ensures var r := Shutdown(s, fpm);
            && r == s.(table := r.table, misplaced := [], replaced := if fpm then map[] else s.replaced)
            && Find(r.table, n) == if n == "" then Find(s.table, n)
                                   else if fpm && n in s.replaced then Some(s.replaced[n])
                                   else if n in s.misplaced then None
                                   else Find(s.table, n)
  {
    WipeAt(s.table, s.misplaced, n);
    RestoredFind(Wipe(s.table, s.misplaced), s.replaced, n);
  }

  /**
   * Under any other server API nothing is given back: an internal function that was changed stays as the request
   * left it, or is gone when it was renamed or copied; one that was not changed is still bound.
   */
  lemma ShutdownKeeps(s: State, ops: seq<Op>, n: Name)
    requires Valid(s) && s.replaced == map[] && s.misplaced == [] && IsRun(s, ops)
    ensures var before := Outcome(s, ops);
            var after := Shutdown(before, false);
            && (IsInternal(s, n) && n !in before.replaced ==> n in after.table && after.table[n] == s.table[n])
            && (n in before.replaced ==>
                  Find(after.table, n) == if n in before.misplaced && n != "" then None else Find(before.table, n))
  {
    var before := Outcome(s, ops);
    StartSaved(s);
    RunSaves(s, s, ops);
    assert SavedAt(s, before, n);
    ShutdownFinds(before, false, n);
    if IsInternal(s, n) && n !in before.replaced {
      assert Find(before.table, n) == Some(s.table[n]);
      assert Find(Shutdown(before, false).table, n) == Some(s.table[n]);
    }
  }

  lemma RestoredFind(table: map<Name, FnId>, replaced: map<Name, FnId>, n: Name)
    ensures Find(Restored(table, replaced), n) == if n in replaced && n != "" then Some(replaced[n]) else Find(table, n)
  {
  }

  // ----- names that were internal stay of internal type

  predicate TypeKeptAt(s: State, n: Name) {
    n in s.replaced && n in s.table && s.table[n] in s.fns ==> !s.fns[s.table[n]].User?
  }

  ghost predicate TypeKept(s: State) {
    forall n :: TypeKeptAt(s, n)
  }

  /** The one operation that ignores what a name used to be: copying a user function. */
  predicate CopiesUserOntoSaved(s: State, op: Op) {
    && op.DoCopy? && Lower(op.target) in s.replaced && Lower(op.target) !in s.table
    && Lower(op.source) in s.table && s.table[Lower(op.source)] in s.fns && s.fns[s.table[Lower(op.source)]].User?
  }

  /** A saved name that is newly bound, or was of internal type, is of internal type in r. */
  predicate TypedAt(s: State, r: State, n: Name) {
    n in r.replaced && n in r.table && (n in s.table ==> IsInternal(s, n)) ==> IsInternal(r, n)
  }

  lemma TypedKeeps(s: State, r: State)
    requires Valid(s) && Valid(r) && TypeKept(s) && AllEvolve(s, r)
    requires forall n :: TypedAt(s, r, n)
    ensures TypeKept(r)
  {
    forall n ensures TypeKeptAt(r, n) {
      assert TypeKeptAt(s, n) && Evolves(s, r, n) && TypedAt(s, r, n);
    }
  }

  lemma StepTypes(s: State, op: Op)
    requires Valid(s) && Enabled(s, op) && !CopiesUserOntoSaved(s, op)
    ensures forall n :: TypedAt(s, Step(s, op), n)
  {
    match op
    case DoAdd(name, src) => AddTypes(s, name, src);
    case DoRedefine(name, src) => RedefineTypes(s, name, src);
    case DoRemove(name) => RemoveTypes(s, name);
    case DoRename(source, target) => RenameTypes(s, source, target);
    case DoCopy(source, target) => CopyTypes(s, source, target);
    case _ => forall n ensures TypedAt(s, Step(s, op), n) {}
  }

  lemma AddTypes(s: State, name: Name, src: FnId)
    requires Valid(s) && src in s.fns && s.fns[src].User?
    ensures forall n :: TypedAt(s, Add(s, name, src).0, n)
  {
    CloneGrows(s, src, Lower(name) in s.replaced);
    forall n ensures TypedAt(s, Add(s, name, src).0, n) {}
  }

  lemma RemoveTypes(s: State, name: Name)
    requires Valid(s)
    ensures forall n :: TypedAt(s, Remove(s, name).0, n)
  {
    var r := Remove(s, name).0;
    RemoveEvolves(s, name);
    FetchEvolves(s, name, true);
    forall n ensures TypedAt(s, r, n) { if n in s.table { assert ShapeKept(s, r, s.table[n]); } }
  }

  lemma RedefineTypes(s: State, name: Name, src: FnId)
    requires Valid(s) && src in s.fns && s.fns[src].User?
    ensures forall n :: TypedAt(s, Redefine(s, name, src).0, n)
  {
    var j := Lower(name);
    FetchEvolves(s, name, true);
    var (s1, orig) := Fetch(s, name, true);
    if name != "" && orig.Some? {
      assert ShapeKept(s, s1, src) && ShapeKept(s, s1, orig.value);
      var internal := !s1.fns[orig.value].User?;
      RedefinedTypes(s, s1, j, src, internal);
    } else {
      SameEvolves(s);
      SameTypes(s, s);
    }
  }

  lemma RedefinedTypes(s: State, m: State, n: Name, src: FnId, internal: bool)
    requires Valid(s) && Valid(m) && Grows(s, m) && m.table == s.table && src in m.fns && m.fns[src].User?
    requires n in m.table && (internal <==> !m.fns[m.table[n]].User?) && (internal ==> n in m.replaced)
    ensures forall j :: TypedAt(s, Redefined(m, n, src, internal), j)
  {
    RedefinedEvolves(m, n, src, internal);
    assert ShapeKept(s, m, m.table[n]);
    ReboundOneTypes(s, m, Redefined(m, n, src, internal), n);
  }

  lemma ReboundOneTypes(s: State, m: State, r: State, n: Name)
    requires Valid(s) && m.table == s.table && Grows(s, m) && Grows(m, r)
    requires n in s.table && n in r.table && r.table == m.table[n := r.table[n]]
    requires IsInternal(s, n) ==> IsInternal(r, n)
    ensures forall j :: TypedAt(s, r, j)
  {
    ReboundTypes(s, m, r, n, n);
  }

  /** The names other than a and b keep their binding. */
  lemma ReboundTypes(s: State, m: State, r: State, a: Name, b: Name)
    requires Valid(s) && m.table == s.table && Grows(s, m) && Grows(m, r)
    requires forall n | n != a && n != b :: n in r.table ==> n in s.table && r.table[n] == s.table[n]
    requires a in r.table ==> a == b
    requires b in r.table && b in r.replaced && (b in s.table ==> IsInternal(s, b)) ==> IsInternal(r, b)
    ensures forall n :: TypedAt(s, r, n)
  {
    forall n ensures TypedAt(s, r, n) {
      if n in s.table { assert ShapeKept(s, m, s.table[n]) && ShapeKept(m, r, s.table[n]); }
    }
  }

  lemma RenameTypes(s: State, source: Name, target: Name)
    requires Valid(s)
    ensures forall n :: TypedAt(s, Rename(s, source, target).0, n)
  {
    var a, b := Lower(source), Lower(target);
    FetchEvolves(s, source, true);
    var (s1, fe) := Fetch(s, source, true);
    if b !in s.table && fe.Some? {
      assert ShapeKept(s, s1, fe.value);
      RenamedTypes(s, s1, a, b, fe.value);
    } else {
      SameTypes(s, s1);
      SameEvolves(s);
      SameTypes(s, s);
    }
  }

  lemma SameTypes(s: State, r: State)
    requires Valid(s) && r.table == s.table && Grows(s, r)
    ensures forall n :: TypedAt(s, r, n)
  {
    forall n ensures TypedAt(s, r, n) { if n in s.table { assert ShapeKept(s, r, s.table[n]); } }
  }

  lemma RenamedTypes(s: State, m: State, a: Name, b: Name, fe: FnId)
    requires Valid(s) && Valid(m) && Grows(s, m) && m.table == s.table
    requires fe in m.fns && a in m.table && m.table[a] == fe && b !in m.table
    requires IsInternal(m, a) ==> a in m.replaced
    ensures forall n :: TypedAt(s, Renamed(m, a, b, fe), n)
  {
    RenamedType(m, a, b, fe);
    ReboundTypes(s, m, Renamed(m, a, b, fe), a, b);
  }

  lemma RenamedType(s: State, a: Name, b: Name, fe: FnId)
    requires Valid(s) && fe in s.fns && a in s.table && s.table[a] == fe && b !in s.table
    requires IsInternal(s, a) ==> a in s.replaced
    ensures var r := Renamed(s, a, b, fe);
            && Grows(s, r) && b in r.table && r.table == (s.table - {a})[b := r.table[b]]
            && (b in r.replaced ==> IsInternal(r, b))
  {
    RenamedEvolves(s, a, b, fe);
    assert Evolves(s, Renamed(s, a, b, fe), b);
  }

  lemma CopyTypes(s: State, source: Name, target: Name)
    requires Valid(s) && !CopiesUserOntoSaved(s, DoCopy(source, target))
    ensures forall n :: TypedAt(s, Copy(s, source, target).0, n)
  {
    var b := Lower(target);
    var (r, ok) := Copy(s, source, target);
    if ok { CopiedType(s, b, Fetch(s, source, false).1.value); }
    forall n ensures TypedAt(s, r, n) {}
  }

  lemma CopiedType(s: State, b: Name, fe: FnId)
    requires Valid(s) && fe in s.fns && b !in s.table
    ensures var r := Copied(s, b, fe);
            b in r.table && r.table == s.table[b := r.table[b]] && (IsInternal(r, b) <==> !s.fns[fe].User?)
  {
    CloneGrows(Misplace(s, fe, b), fe, !s.fns[fe].User?);
  }

  /** Names that were once internal stay bound to functions of internal type, exactly but for that copy. */
  lemma TypeKeptIff(s: State, op: Op)
    requires Valid(s) && Enabled(s, op) && TypeKept(s)
    ensures TypeKept(Step(s, op)) <==> !CopiesUserOntoSaved(s, op)
  {
    StepEvolves(s, op);
    if CopiesUserOntoSaved(s, op) {
      var b := Lower(op.target);
      CopiedType(s, b, s.table[Lower(op.source)]);
      assert Evolves(s, Step(s, op), b);
      assert !TypeKeptAt(Step(s, op), b);
    } else {
      StepTypes(s, op);
      TypedKeeps(s, Step(s, op));
    }
  }

  ghost predicate IsTypedRun(s: State, ops: seq<Op>)
    requires IsRun(s, ops)
    decreases |ops|
  {
    ops == [] || (!CopiesUserOntoSaved(s, ops[0]) && IsTypedRun(Step(s, ops[0]), ops[1..]))
  }

  lemma {:induction false} RunKeepsType(s: State, ops: seq<Op>)
    requires Valid(s) && TypeKept(s) && IsRun(s, ops) && IsTypedRun(s, ops)
    ensures TypeKept(Outcome(s, ops))
    decreases |ops|
  {
    if ops != [] {
      TypeKeptIff(s, ops[0]);
      StepEvolves(s, ops[0]);
      RunKeepsType(Step(s, ops[0]), ops[1..]);
    }
  }

  // ----- renaming

  /** A rename that goes through moves the body, and nothing else changes what it runs. */
  lemma RenameMovesBody(s: State, source: Name, target: Name)
    requires Valid(s) && Rename(s, source, target).1
    ensures var r := Rename(s, source, target).0;
            && Valid(r) && RenamedTo(s, r, Lower(source), Lower(target))
            && Lower(target) !in s.table && Grows(s, r)
  {
    var a, b := Lower(source), Lower(target);
    RenameEvolves(s, source, target);
    FetchEvolves(s, source, true);
    var (s1, fe) := Fetch(s, source, true);
    assert ShapeKept(s, s1, fe.value);
    RenamedEvolves(s1, a, b, fe.value);
    assert Known(s, fe.value);
    BodyKept(s, s1, fe.value);
  }

  /** n is bound in both or in neither, and runs the same body. */
  predicate ResolvesAlike(s: State, r: State, n: Name) {
    && (n in s.table <==> n in r.table)
    && (n in s.table ==> Known(s, s.table[n]) && Known(r, r.table[n]) && BodyOf(r, r.table[n]) == BodyOf(s, s.table[n]))
  }

  /** Renaming there and back is possible and restores what every name resolves to. */
  lemma RenameBack(s: State, a: Name, b: Name)
    requires Valid(s) && s.internalOverride
    requires Lower(a) in s.table && Lower(b) !in s.table
    ensures var there := Rename(s, a, b);
            && there.1 && Valid(there.0)
            && Rename(there.0, b, a).1
            && forall n :: ResolvesAlike(s, Rename(there.0, b, a).0, n)
  {
    var there := Rename(s, a, b).0;
    RenameMovesBody(s, a, b);
    var back := Rename(there, b, a).0;
    RenameMovesBody(there, b, a);
    forall n ensures ResolvesAlike(s, back, n) { BackAt(s, there, back, Lower(a), Lower(b), n); }
  }

  lemma BackAt(s: State, there: State, back: State, a: Name, b: Name, n: Name)
    requires Valid(s) && b !in s.table && Grows(s, there) && Grows(there, back)
    requires RenamedTo(s, there, a, b) && RenamedTo(there, back, b, a)
    ensures ResolvesAlike(s, back, n)
  {
    if n in s.table && n != a {
      assert Known(s, s.table[n]);
      BodyKept(s, there, s.table[n]);
      BodyKept(there, back, s.table[n]);
    }
  }
}
