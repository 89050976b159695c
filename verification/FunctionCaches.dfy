/**
 * What runtime caches and hard-coded stack sizes of user functions keep over the
 * function operations of runkit_functions.c, and exactly when they do not.
 */
module FunctionCaches {
  import opened Wrappers
  import opened FunctionTable
  import opened FunctionRuns

  // ----- runtime caches

  predicate Cached(s: State, f: FnId, n: Name) {
    f in s.fns && s.fns[f].User? && n in s.fns[f].cache
  }

  /** What f remembers for n is what the table says. */
  predicate CacheFits(s: State, f: FnId, n: Name) {
    Cached(s, f, n) ==> Find(s.table, n) == Some(s.fns[f].cache[n])
  }

  /** The caches the passes reach agree with the table. */
  ghost predicate Coherent(s: State) {
    forall f, n :: Visited(s, f) ==> CacheFits(s, f, n)
  }

  lemma ClearedFits(s: State)
    requires Valid(s)
    ensures Coherent(ClearAll(s))
    ensures forall f :: Visited(ClearAll(s), f) <==> Visited(s, f)
  {
    var r := ClearAll(s);
    forall f, n | Visited(r, f) ensures CacheFits(r, f, n) {
      assert Visited(s, f);
    }
  }

  /** Binding an absent name to a function with an empty cache. */
  lemma BindAbsentFits(s: State, r: State, n: Name, f: FnId)
    requires Valid(s) && Coherent(s) && n !in s.table && f !in s.fns
    requires r.table == s.table[n := f] && r.others == s.others && r.stack == s.stack
    requires forall g | g in s.fns :: g in r.fns && r.fns[g] == s.fns[g]
    requires f in r.fns && (r.fns[f].User? ==> r.fns[f].cache == map[])
    ensures Coherent(r)
  {
    forall g, j | Visited(r, g) ensures CacheFits(r, g, j) {
      if g != f { assert Visited(s, g) && CacheFits(s, g, j); }
    }
  }

  lemma AddFits(s: State, name: Name, src: FnId)
    requires Valid(s) && src in s.fns && Coherent(s)
    ensures Coherent(Add(s, name, src).0)
  {
    var (r, ok) := Add(s, name, src);
    if ok {
      CloneGrows(s, src, Lower(name) in s.replaced);
      BindAbsentFits(s, r, Lower(name), r.table[Lower(name)]);
    }
  }

  lemma CopyFits(s: State, source: Name, target: Name)
    requires Valid(s) && Coherent(s)
    ensures Coherent(Copy(s, source, target).0)
  {
    var (r, ok) := Copy(s, source, target);
    if ok {
      var b, fe := Lower(target), Fetch(s, source, false).1.value;
      CloneGrows(Misplace(s, fe, b), fe, !s.fns[fe].User?);
      BindAbsentFits(s, r, b, r.table[b]);
    }
  }

  lemma FetchFits(s: State, name: Name, change: bool)
    requires Valid(s) && Coherent(s)
    ensures Coherent(Fetch(s, name, change).0)
  {
    var r := Fetch(s, name, change).0;
    FetchEvolves(s, name, change);
    forall f, n | Visited(r, f) ensures CacheFits(r, f, n) {
      assert f != s.free;
      assert Visited(s, f) && CacheFits(s, f, n);
    }
  }

  lemma RedefinedFits(s: State, n: Name, src: FnId, internal: bool)
    requires Valid(s) && src in s.fns
    ensures Coherent(Redefined(s, n, src, internal))
  {
    CloneGrows(s, src, internal);
    var (s1, f) := Clone(s, src, internal);
    var s2 := FixAll(ClearAll(s1), n, f);
    var r := Redefined(s, n, src, internal);
    ClearedFits(s1);
    forall g, j | Visited(r, g) ensures CacheFits(r, g, j) {
      if g == f {
        assert !Visited(s1, f);
      } else {
        assert Visited(s1, g);
      }
    }
  }

  lemma RemoveFits(s: State, name: Name)
    requires Valid(s) && Coherent(s)
    ensures Coherent(Remove(s, name).0)
  {
    FetchFits(s, name, true);
    var (s1, fe) := Fetch(s, name, true);
    if fe.Some? {
      var s2 := s1.(table := s1.table - {Lower(name)});
      ValidTable(s1, s2, s2.table);
      ClearedFits(s2);
    }
  }

  lemma RenameFits(s: State, source: Name, target: Name)
    requires Valid(s) && Coherent(s)
    ensures Coherent(Rename(s, source, target).0)
  {
    var a, b := Lower(source), Lower(target);
    FetchFits(s, source, true);
    var (s1, fe) := Fetch(s, source, true);
    if b !in s.table && fe.Some? {
      var (s2, f) := Moved(s1, fe.value, b in s1.replaced);
      var s3 := Rebind(s2, (s2.table - {a})[b := f], s2.replaced);
      ClearedFits(Misplace(FixAll(s3, b, f), f, b));
    }
  }

  /** The caches in reach stay right, exactly unless a function starts to run with a wrong one. */
  lemma StepFitsIff(s: State, op: Op)
    requires Valid(s) && Enabled(s, op) && Coherent(s)
    ensures Coherent(Step(s, op)) <==> EntersRight(s, op)
  {
    match op
    case DoAdd(name, src) => AddFits(s, name, src);
    case DoRedefine(name, src) =>
      FetchFits(s, name, true);
      var (s1, orig) := Fetch(s, name, true);
      FetchEvolves(s, name, true);
      assert ShapeKept(s, s1, src);
      if name != "" && orig.Some? { RedefinedFits(s1, Lower(name), src, !s1.fns[orig.value].User?); }
    case DoRemove(name) => RemoveFits(s, name);
    case DoRename(source, target) => RenameFits(s, source, target);
    case DoCopy(source, target) => CopyFits(s, source, target);
    case _ => EngineFits(s, op);
  }

  /** The user function an event starts to run. */
  function Enters(s: State, op: Op): Option<FnId> {
    match op
    case Call(name) => if Found(s, name).Some? then Entered(s, Found(s, name).value) else None
    case Invoke(f) => Some(f)
    case _ => None
  }

  /** The function that starts to run, if any, remembers what the table says. */
  ghost predicate EntersRight(s: State, op: Op) {
    Enters(s, op).Some? ==> forall n :: CacheFits(s, Enters(s, op).value, n)
  }

  /** The running function is one of those in reach. */
  lemma RunningVisited(s: State)
    requires Valid(s) && s.stack != []
    ensures Visited(s, s.stack[|s.stack| - 1])
  {
    assert s.stack[|s.stack| - 1] in s.stack;
  }

  lemma RememberFits(s: State, f: FnId, name: Name)
    requires Valid(s) && Coherent(s) && Visited(s, f) && (name in s.fns[f].cache || name in s.table)
    ensures var r := Remember(s, f, name);
            && Coherent(r) && r.table == s.table && (forall g :: Visited(r, g) <==> Visited(s, g))
            && forall g, n :: CacheFits(s, g, n) ==> CacheFits(r, g, n)
    ensures forall g, n | g != f :: CacheFits(s, g, n) == CacheFits(Remember(s, f, name), g, n)
  {
    var r := Remember(s, f, name);
    forall g, n | Visited(r, g) ensures CacheFits(r, g, n) { assert CacheFits(s, g, n); }
  }

  lemma PushFitsIff(s: State, f: FnId)
    requires Valid(s) && Coherent(s) && f in s.fns && s.fns[f].User?
    ensures Coherent(Push(s, f)) <==> forall n :: CacheFits(s, f, n)
  {
    var r := Push(s, f);
    assert Visited(r, f);
    forall g, n ensures CacheFits(r, g, n) == CacheFits(s, g, n) {}
    forall g | g != f ensures Visited(r, g) <==> Visited(s, g) {}
  }

  lemma CallFitsIff(s: State, name: Name)
    requires Valid(s) && Coherent(s) && Found(s, name).Some?
    ensures Coherent(CallName(s, name)) <==> EntersRight(s, Call(name))
  {
    var f := s.stack[|s.stack| - 1];
    RunningVisited(s);
    RememberFits(s, f, name);
    var e := Entered(s, Found(s, name).value);
    if e.Some? {
      assert Known(s, Found(s, name).value);
      var s1 := Remember(s, f, name);
      PushFitsIff(s1, e.value);
      forall n ensures CacheFits(s1, e.value, n) <==> CacheFits(s, e.value, n) {
        if e.value == f { assert Visited(s, f) && CacheFits(s, f, n) && CacheFits(s1, f, n); }
      }
    }
  }

  lemma EngineFits(s: State, op: Op)
    requires Valid(s) && Enabled(s, op) && Coherent(s) && ByEngine(op)
    ensures Coherent(Step(s, op)) <==> EntersRight(s, op)
  {
    if op.Call? {
      CallFitsIff(s, op.name);
    } else if op.Invoke? {
      PushFitsIff(s, op.f);
    } else {
      var r := Step(s, op);
      forall f, n | Visited(r, f) ensures CacheFits(r, f, n) {
        if op.Born? && f == s.free {
          assert r.fns[f].cache == map[];
        } else {
          assert Visited(s, f) && CacheFits(s, f, n);
        }
      }
    }
  }

  ghost predicate IsRightRun(s: State, ops: seq<Op>)
    requires IsRun(s, ops)
    decreases |ops|
  {
    ops == [] || (EntersRight(s, ops[0]) && IsRightRun(Step(s, ops[0]), ops[1..]))
  }

  /** In every run that enters no function with an outdated cache, every cache in reach agrees with the table. */
  lemma {:induction false} RunKeepsCaches(s: State, ops: seq<Op>)
    requires Valid(s) && Coherent(s) && IsRun(s, ops) && IsRightRun(s, ops)
    ensures Coherent(Outcome(s, ops))
    decreases |ops|
  {
    if ops != [] {
      StepFitsIff(s, ops[0]);
      StepEvolves(s, ops[0]);
      RunKeepsCaches(Step(s, ops[0]), ops[1..]);
    }
  }

  /** The name an operation takes away or rebinds, if it goes through. */
  ghost function Upsets(s: State, op: Op): Option<Name>
    requires Valid(s) && Enabled(s, op)
  {
    match op
    case DoRedefine(name, src) => if Redefine(s, name, src).1 then Some(Lower(name)) else None
    case DoRemove(name) => if Remove(s, name).1 then Some(Lower(name)) else None
    case DoRename(source, target) => if Rename(s, source, target).1 then Some(Lower(source)) else None
    case _ => None
  }

  /**
   * A function behind an alias is not reached: after an operation that takes away or rebinds a name its
   * cache is right exactly when it never held that name.
   */
  lemma HiddenCacheIff(s: State, op: Op, f: FnId)
    requires Valid(s) && Enabled(s, op) && Upsets(s, op).Some?
    requires f in s.fns && s.fns[f].User? && !Visited(s, f) && !Visited(Step(s, op), f)
    requires forall n :: CacheFits(s, f, n)
    ensures (forall n :: CacheFits(Step(s, op), f, n)) <==> Upsets(s, op).value !in s.fns[f].cache
  {
    match op
    case DoRedefine(name, src) => HiddenRedefine(s, name, src, f); UndercutIff(s, Step(s, op), f, Lower(name));
    case DoRemove(name) => HiddenRemove(s, name, f); UndercutIff(s, Step(s, op), f, Lower(name));
    case DoRename(source, target) => HiddenRename(s, source, target, f); UndercutIff(s, Step(s, op), f, Lower(source));
    case _ => assert false;
  }

  /** The cache of a hidden function stays, every name it may hold but n too, and n is not what it was. */
  ghost predicate Undercuts(s: State, r: State, f: FnId, n: Name) {
    && f in s.fns && f in r.fns && r.fns[f] == s.fns[f]
    && n in s.table && Find(r.table, n) != Find(s.table, n)
    && forall j | j in s.table && j != n :: Find(r.table, j) == Find(s.table, j)
  }

  lemma HiddenRemove(s: State, name: Name, f: FnId)
    requires Valid(s) && f in s.fns && !Visited(s, f) && Remove(s, name).1
    ensures Undercuts(s, Remove(s, name).0, f, Lower(name))
  {
    FetchEvolves(s, name, true);
    var s1 := Fetch(s, name, true).0;
    assert !Visited(s1.(table := s1.table - {Lower(name)}), f);
  }

  lemma UndercutIff(s: State, r: State, f: FnId, m: Name)
    requires Undercuts(s, r, f, m) && s.fns[f].User? && forall n :: CacheFits(s, f, n)
    ensures (forall n :: CacheFits(r, f, n)) <==> m !in s.fns[f].cache
  {
    if m in s.fns[f].cache {
      assert CacheFits(s, f, m) && !CacheFits(r, f, m);
    } else {
      forall n ensures CacheFits(r, f, n) {
        assert CacheFits(s, f, n);
        if Cached(s, f, n) { assert Find(s.table, n).Some? && n in s.table; }
      }
    }
  }

  lemma HiddenRedefine(s: State, name: Name, src: FnId, f: FnId)
    requires Valid(s) && src in s.fns && s.fns[src].User? && Redefine(s, name, src).1
    requires f in s.fns && !Visited(s, f)
    ensures Undercuts(s, Redefine(s, name, src).0, f, Lower(name))
  {
    HiddenFetched(s, name, f);
    FetchQuiet(s, name, src);
    var (s1, orig) := Fetch(s, name, true);
    var internal := !s1.fns[orig.value].User?;
    HiddenRedefined(s1, Lower(name), src, internal, f);
    UndercutsFrom(s, s1, Redefined(s1, Lower(name), src, internal), f, Lower(name));
  }

  lemma FetchQuiet(s: State, name: Name, f: FnId)
    requires Valid(s) && f in s.fns
    ensures var s1 := Fetch(s, name, true).0;
            s1.table == s.table && s1.others == s.others && s1.stack == s.stack && f in s1.fns && s1.fns[f] == s.fns[f]
  {
  }

  lemma HiddenFetched(s: State, name: Name, f: FnId)
    requires Valid(s) && f in s.fns && !Visited(s, f)
    ensures var s1 := Fetch(s, name, true).0;
            s1.table == s.table && f in s1.fns && s1.fns[f] == s.fns[f] && !Visited(s1, f)
  {
    FetchQuiet(s, name, f);
  }

  lemma UndercutsFrom(s: State, s1: State, r: State, f: FnId, n: Name)
    requires f in s.fns && f in s1.fns && s1.fns[f] == s.fns[f] && s1.table == s.table && Undercuts(s1, r, f, n)
    ensures Undercuts(s, r, f, n)
  {
  }

  lemma HiddenRedefined(s: State, n: Name, src: FnId, internal: bool, f: FnId)
    requires Valid(s) && src in s.fns && n in s.table && f in s.fns && !Visited(s, f)
    ensures Undercuts(s, Redefined(s, n, src, internal), f, n)
  {
    var (s1, c) := Clone(s, src, internal);
    CloneGrows(s, src, internal);
    assert s1.fns[f] == s.fns[f] && !Visited(s1, f) && !Visited(ClearAll(s1), f);
  }

  lemma HiddenRename(s: State, source: Name, target: Name, f: FnId)
    requires Valid(s) && Rename(s, source, target).1
    requires f in s.fns && !Visited(s, f) && !Visited(Rename(s, source, target).0, f)
    ensures Undercuts(s, Rename(s, source, target).0, f, Lower(source))
  {
    HiddenFetched(s, source, f);
    var (s1, fe) := Fetch(s, source, true);
    HiddenRenamed(s1, Lower(source), Lower(target), fe.value, f);
    UndercutsFrom(s, s1, Renamed(s1, Lower(source), Lower(target), fe.value), f, Lower(source));
  }

  lemma HiddenRenamed(s: State, a: Name, b: Name, fe: FnId, f: FnId)
    requires Valid(s) && fe in s.fns && a in s.table && b !in s.table
    requires f in s.fns && !Visited(s, f) && !Visited(Renamed(s, a, b, fe), f)
    ensures Undercuts(s, Renamed(s, a, b, fe), f, a)
  {
    var (s1, g) := Moved(s, fe, b in s.replaced);
    MovedGrows(s, fe, b in s.replaced);
    MovedExact(s, fe, b in s.replaced, f);
    HiddenSettle(Rebind(s1, (s1.table - {a})[b := g], s1.replaced), b, g, f);
    TableUndercuts(s, Renamed(s, a, b, fe), f, a, b, g);
  }

  lemma MovedExact(s: State, fe: FnId, internal: bool, f: FnId)
    requires Valid(s) && fe in s.fns && f in s.fns
    ensures f in Moved(s, fe, internal).0.fns && Moved(s, fe, internal).0.fns[f] == s.fns[f]
  {
  }

  lemma TableUndercuts(s: State, r: State, f: FnId, a: Name, b: Name, g: FnId)
    requires f in s.fns && f in r.fns && r.fns[f] == s.fns[f]
    requires a in s.table && b !in s.table && r.table == (s.table - {a})[b := g]
    ensures Undercuts(s, r, f, a)
  {
  }

  lemma HiddenSettle(s: State, b: Name, g: FnId, f: FnId)
    requires Valid(s) && g in s.fns && f in s.fns && !Visited(Settle(s, b, g), f)
    ensures Settle(s, b, g).fns[f] == s.fns[f] && Settle(s, b, g).table == s.table
  {
    SettleGrows(s, b, g);
    assert ShapeKept(s, Settle(s, b, g), f);
    assert !Visited(s, f);
    var s1 := FixAll(s, b, g);
    assert s1.fns[f] == s.fns[f] && !Visited(s1, f) && !Visited(Misplace(s1, g, b), f);
  }

  /** The function behind an alias that is bound to n: callable, and out of reach of the passes. */
  ghost predicate Hidden(s: State, n: Name, f: FnId) {
    && n in s.table && s.table[n] in s.fns && s.fns[s.table[n]] == Alias(f)
    && f in s.fns && s.fns[f].User? && !Visited(s, f)
  }

  /**
   * So once such a function has called another and returned, it remembers the other after its removal; when it
   * runs again it is in reach with a wrong cache, and calls the removed function.
   */
  lemma HiddenCacheGoesStale(s: State, alias: Name, f: FnId, name: Name)
    requires Valid(s) && Hidden(s, alias, f) && alias != Lower(name)
    requires Lower(name) in s.table && s.fns[s.table[Lower(name)]].User?
    requires Cached(s, f, Lower(name)) && CacheFits(s, f, Lower(name))
    ensures var r := Remove(s, name).0;
            && Valid(r) && Hidden(r, alias, f) && Lower(name) !in r.table && Enabled(r, Invoke(f))
            && var e := Push(r, f);
               Visited(e, f) && !Coherent(e) && Found(e, Lower(name)) == Some(s.table[Lower(name)])
  {
    var n := Lower(name);
    var s2 := s.(table := s.table - {n});
    RemoveEvolves(s, name);
    assert !Visited(s2, f);
    var r := ClearAll(s2);
    assert r == Remove(s, name).0;
    assert ShapeKept(s, r, s.table[alias]) && ShapeKept(s, r, f);
    assert r.fns[f] == s.fns[f] && !Visited(r, f);
    assert !CacheFits(Push(r, f), f, n);
  }

  // ----- stack sizes

  predicate SiteFits(s: State, site: Site) {
    site.name in s.table && s.table[site.name] in s.fns ==> site.size >= Need(site.args, s.fns[s.table[site.name]])
  }

  /** Every call in f reserves enough for the function its name is bound to. */
  predicate FnFits(s: State, f: FnId) {
    f in s.fns && s.fns[f].User? ==> forall j | 0 <= j < |s.fns[f].sites| :: SiteFits(s, s.fns[f].sites[j])
  }

  ghost predicate Roomy(s: State) {
    forall f :: Visited(s, f) ==> FnFits(s, f)
  }

  /** The calls of `name` in obj reserve enough for callee. */
  predicate Reserves(obj: Obj, name: Name, callee: Obj) {
    obj.User? ==> forall j | 0 <= j < |obj.sites| :: obj.sites[j].name == name ==>
      obj.sites[j].size >= Need(obj.sites[j].args, callee)
  }

  /** The calls in obj of names other than a and b reserve enough. */
  predicate OthersFit(s: State, obj: Obj, a: Name, b: Name) {
    obj.User? ==> forall j | 0 <= j < |obj.sites| :: obj.sites[j].name != a && obj.sites[j].name != b ==>
      SiteFits(s, obj.sites[j])
  }

  function Max(a: int, b: int): int {
    if a < b then b else a
  }

  /** The pass raises the calls of the name to the larger of the old size and the need, and changes nothing else. */
  lemma FixAllReserves(s: State, n: Name, f: FnId, g: FnId)
    requires Valid(s) && f in s.fns && g in s.fns
    ensures var r := FixAll(s, n, f);
            && r == s.(fns := r.fns)
            && (!Visited(s, g) ==> r.fns[g] == s.fns[g])
            && (Visited(s, g) ==>
                  && r.fns[g] == s.fns[g].(sites := r.fns[g].sites) && |r.fns[g].sites| == |s.fns[g].sites|
                  && Reserves(r.fns[g], n, s.fns[f])
                  && forall j | 0 <= j < |s.fns[g].sites| ::
                       var site := s.fns[g].sites[j];
                       r.fns[g].sites[j] ==
                       if site.name == n then site.(size := Max(site.size, Need(site.args, s.fns[f])))
                                            else site)
  {
    var r := FixAll(s, n, f);
    if Visited(s, g) {
      assert r.fns[g] == FixObj(s.fns[g], n, s.fns[f]);
    }
  }

  /** Adding, like copying, leaves the sizes as they are: fine exactly when every caller already reserves enough. */
  lemma AddRoomyIff(s: State, name: Name, src: FnId)
    requires Valid(s) && src in s.fns && s.fns[src].User? && Roomy(s) && Add(s, name, src).1
    ensures var n, internal := Lower(name), Lower(name) in s.replaced;
            Roomy(Add(s, name, src).0) <==>
              && (forall g | Visited(s, g) :: Reserves(s.fns[g], n, CalleeOf(s.fns[src], internal)))
              && (internal || (OthersFit(s, s.fns[src], n, n) && Reserves(s.fns[src], n, s.fns[src])))
  {
    var n, r := Lower(name), Add(s, name, src).0;
    CloneGrows(s, src, n in s.replaced);
    BoundRoomyIff(s, r, n, CalleeOf(s.fns[src], n in s.replaced));
    OwnRoomyIff(s, r, n, s.fns[src], n in s.replaced);
  }

  lemma CopyRoomyIff(s: State, source: Name, target: Name)
    requires Valid(s) && Roomy(s) && Copy(s, source, target).1
    ensures Roomy(Copy(s, source, target).0) <==>
              forall g | Visited(s, g) :: Reserves(s.fns[g], Lower(target), s.fns[s.table[Lower(source)]])
  {
    var b, r := Lower(target), Copy(s, source, target).0;
    var fe := s.table[Lower(source)];
    CloneGrows(Misplace(s, fe, b), fe, !s.fns[fe].User?);
    BoundRoomyIff(s, r, b, s.fns[fe]);
    OwnRoomyIff(s, r, b, s.fns[fe], !s.fns[fe].User?);
    if s.fns[fe].User? {
      assert Visited(s, fe);
      assert FnFits(s, fe);
    }
  }

  /** What stack calls of a clone of obj need to know. */
  function CalleeOf(obj: Obj, internal: bool): Obj {
    if internal then Alias(0) else obj
  }

  /** r binds the absent name n to a new function that needs as much stack as callee. */
  predicate Binds(s: State, r: State, n: Name, callee: Obj) {
    && n !in s.table && n in r.table && r.table == s.table[n := r.table[n]] && r.others == s.others
    && r.stack == s.stack
    && r.table[n] !in s.fns && r.table[n] in r.fns
    && (forall g | g in s.fns :: g in r.fns && r.fns[g] == s.fns[g])
    && (r.fns[r.table[n]].User? <==> callee.User?)
    && (callee.User? ==> r.fns[r.table[n]].code == callee.code && r.fns[r.table[n]].sites == callee.sites)
  }

  lemma BoundRoomyIff(s: State, r: State, n: Name, callee: Obj)
    requires Valid(s) && Roomy(s) && Binds(s, r, n, callee)
    ensures Roomy(r) <==>
              (forall g | Visited(s, g) :: Reserves(s.fns[g], n, callee)) && FnFits(r, r.table[n])
  {
    var f := r.table[n];
    forall g | Visited(s, g) ensures FnFits(r, g) <==> Reserves(s.fns[g], n, callee) {
      assert FnFits(s, g);
      OneRoomyIff(s, r, n, callee, g);
    }
    forall g ensures Visited(r, g) <==> Visited(s, g) || (g == f && callee.User?) {
      if Visited(s, g) && g !in s.others && g !in s.stack {
        var j :| j in s.table && s.table[j] == g;
        assert r.table[j] == g;
      }
    }
  }

  lemma OneRoomyIff(s: State, r: State, n: Name, callee: Obj, g: FnId)
    requires Valid(s) && Binds(s, r, n, callee) && g in s.fns && s.fns[g].User? && FnFits(s, g)
    ensures FnFits(r, g) <==> Reserves(s.fns[g], n, callee)
  {
    var sites := s.fns[g].sites;
    forall j | 0 <= j < |sites|
      ensures SiteFits(r, sites[j]) <==> (sites[j].name == n ==> sites[j].size >= Need(sites[j].args, callee))
    {
      assert SiteFits(s, sites[j]);
    }
  }

  /** Whether the new function itself reserves enough for its calls. */
  lemma OwnRoomyIff(s: State, r: State, n: Name, obj: Obj, internal: bool)
    requires Valid(s) && Binds(s, r, n, CalleeOf(obj, internal))
    ensures FnFits(r, r.table[n]) <==> internal || (OthersFit(s, obj, n, n) && Reserves(obj, n, obj))
  {
    if !internal && obj.User? {
      forall j | 0 <= j < |obj.sites|
        ensures SiteFits(r, obj.sites[j]) <==>
                if obj.sites[j].name == n then obj.sites[j].size >= Need(obj.sites[j].args, obj)
                  else SiteFits(s, obj.sites[j])
      {
      }
    }
  }

  /** r binds no name but n otherwise than s, up to stack sizes and caches. */
  ghost predicate BindsOnly(s: State, r: State, n: Name) {
    Grows(s, r) && forall j | j in r.table && j != n :: j in s.table && r.table[j] == s.table[j]
  }

  lemma SiteKept(s: State, r: State, n: Name, site: Site)
    requires Valid(s) && BindsOnly(s, r, n) && site.name != n && SiteFits(s, site)
    ensures SiteFits(r, site)
  {
    if site.name in r.table { assert ShapeKept(s, r, s.table[site.name]); }
  }

  /** A function the pass has reached reserves enough for the new binding of n too. */
  lemma FixedFits(s: State, r: State, n: Name, g: FnId, callee: Obj)
    requires Valid(s) && BindsOnly(s, r, n) && FnFits(s, g)
    requires g in s.fns && g in r.fns && s.fns[g].User? && r.fns[g].User?
    requires r.fns[g].sites == FixSites(s.fns[g].sites, n, callee)
    requires n in r.table && r.table[n] in r.fns && ShapeOf(r.fns[r.table[n]]) == ShapeOf(callee)
    ensures FnFits(r, g)
  {
    var sites := s.fns[g].sites;
    forall j | 0 <= j < |sites| ensures SiteFits(r, r.fns[g].sites[j]) {
      assert SiteFits(s, sites[j]);
      if sites[j].name != n { SiteKept(s, r, n, sites[j]); }
    }
  }

  lemma FetchRoomy(s: State, name: Name, change: bool)
    requires Valid(s) && Roomy(s)
    ensures Roomy(Fetch(s, name, change).0)
  {
    var r := Fetch(s, name, change).0;
    forall f | Visited(r, f) ensures FnFits(r, f) {
      assert f != s.free && Visited(s, f) && FnFits(s, f);
      forall j | 0 <= j < |r.fns[f].sites| ensures SiteFits(r, r.fns[f].sites[j]) {
        assert SiteFits(s, s.fns[f].sites[j]);
      }
    }
  }

  lemma RemoveKeepsRoomy(s: State, name: Name)
    requires Valid(s) && Roomy(s)
    ensures Roomy(Remove(s, name).0)
  {
    FetchRoomy(s, name, true);
    var (s1, fe) := Fetch(s, name, true);
    if fe.Some? {
      var n, r := Lower(name), Remove(s, name).0;
      var s2 := s1.(table := s1.table - {n});
      ValidTable(s1, s2, s2.table);
      PassesGrow(s2, n, fe.value);
      GrowsTwice(s1, s2, r);
      forall f | Visited(r, f) ensures FnFits(r, f) {
        assert Visited(s2, f) && Visited(s1, f) && FnFits(s1, f);
        forall j | 0 <= j < |r.fns[f].sites| ensures SiteFits(r, r.fns[f].sites[j]) {
          assert SiteFits(s1, s1.fns[f].sites[j]);
          if s1.fns[f].sites[j].name != n { SiteKept(s1, r, n, s1.fns[f].sites[j]); }
        }
      }
    }
  }

  // redefining: callers are fixed, the new code itself is not

  /** r binds n to f, which needs as much stack as callee, and the pass has been made over all other functions. */
  ghost predicate Passed(s: State, r: State, n: Name, f: FnId, callee: Obj) {
    && BindsOnly(s, r, n)
    && n in r.table && r.table[n] == f && f in r.fns && ShapeOf(r.fns[f]) == ShapeOf(callee)
    && forall g :: PassedAt(s, r, n, f, callee, g)
  }

  ghost predicate PassedAt(s: State, r: State, n: Name, f: FnId, callee: Obj, g: FnId) {
    Visited(r, g) && g != f ==> Visited(s, g) && r.fns[g].sites == FixSites(s.fns[g].sites, n, callee)
  }

  lemma PassedRoomyIff(s: State, r: State, n: Name, f: FnId, callee: Obj)
    requires Valid(s) && Roomy(s) && Passed(s, r, n, f, callee)
    ensures Roomy(r) <==> FnFits(r, f)
  {
    forall g | Visited(r, g) && g != f ensures FnFits(r, g) {
      assert PassedAt(s, r, n, f, callee, g) && FnFits(s, g);
      FixedFits(s, r, n, g, callee);
    }
    if FnFits(r, f) {
      forall g | Visited(r, g) ensures FnFits(r, g) {}
    }
    if r.fns[f].User? { assert Visited(r, f); }
  }

  lemma RedefinedRoomyIff(s: State, n: Name, src: FnId, internal: bool)
    requires Valid(s) && Roomy(s) && src in s.fns && s.fns[src].User? && n in s.table
    requires (internal <==> !s.fns[s.table[n]].User?) && (internal ==> n in s.replaced)
    ensures Roomy(Redefined(s, n, src, internal)) <==>
              internal || (OthersFit(s, s.fns[src], n, n) && Reserves(s.fns[src], n, s.fns[src]))
  {
    var r := Redefined(s, n, src, internal);
    var (s1, f) := Clone(s, src, internal);
    RedefinedEvolves(s, n, src, internal);
    RedefinedPasses(s, n, src, internal, s1, f, r);
    PassedRoomyIff(s, r, n, f, s1.fns[f]);
    NewFits(s, r, n, src, internal, f);
  }

  lemma RedefinedPasses(s: State, n: Name, src: FnId, internal: bool, s1: State, f: FnId, r: State)
    requires Valid(s) && src in s.fns && s.fns[src].User? && Grows(s, r)
    requires (s1, f) == Clone(s, src, internal) && r == Redefined(s, n, src, internal)
    ensures Passed(s, r, n, f, s1.fns[f])
    ensures r.fns[f].User? <==> !internal
    ensures !internal ==> r.fns[f].code == s.fns[src].code && r.fns[f].sites == s.fns[src].sites
  {
    CloneGrows(s, src, internal);
    var s2 := ClearAll(s1);
    assert !Visited(s1, f) && !Visited(s2, f);
    assert s2.fns[f] == s1.fns[f] && r.fns[f] == s1.fns[f];
    forall g ensures PassedAt(s, r, n, f, s1.fns[f], g) {
      if Visited(r, g) && g != f {
        assert Visited(s1, g) && Visited(s, g) && Visited(s2, g);
      }
    }
  }

  lemma NewFits(s: State, r: State, n: Name, src: FnId, internal: bool, f: FnId)
    requires Valid(s) && BindsOnly(s, r, n) && src in s.fns && s.fns[src].User?
    requires n in r.table && r.table[n] == f && f in r.fns && (forall j | j in s.table :: j in r.table)
    requires r.fns[f].User? <==> !internal
    requires !internal ==> r.fns[f].code == s.fns[src].code && r.fns[f].sites == s.fns[src].sites
    ensures FnFits(r, f) <==> internal || (OthersFit(s, s.fns[src], n, n) && Reserves(s.fns[src], n, s.fns[src]))
  {
    if !internal {
      var sites := s.fns[src].sites;
      forall j | 0 <= j < |sites|
        ensures SiteFits(r, sites[j]) <==>
                if sites[j].name == n then sites[j].size >= Need(sites[j].args, s.fns[src]) else SiteFits(s, sites[j])
      {
        if sites[j].name in s.table { assert ShapeKept(s, r, s.table[sites[j].name]); }
      }
    }
  }

  lemma RedefineRoomyIff(s: State, name: Name, src: FnId)
    requires Valid(s) && Roomy(s) && src in s.fns && s.fns[src].User? && Redefine(s, name, src).1
    ensures var n := Lower(name);
            Roomy(Redefine(s, name, src).0) <==>
              IsInternal(s, n) || (OthersFit(s, s.fns[src], n, n) && Reserves(s.fns[src], n, s.fns[src]))
  {
    var n := Lower(name);
    FetchEvolves(s, name, true);
    FetchRoomy(s, name, true);
    FetchExact(s, name, s.fns[src], n, n);
    var (s1, orig) := Fetch(s, name, true);
    RedefinedRoomyIff(s1, n, src, !s1.fns[orig.value].User?);
  }

  /** The fetch changes no function and no binding. */
  lemma FetchExact(s: State, name: Name, obj: Obj, a: Name, b: Name)
    requires Valid(s)
    ensures var s1 := Fetch(s, name, true).0;
            && s1.table == s.table && (forall f | f in s.fns :: f in s1.fns && s1.fns[f] == s.fns[f])
            && (OthersFit(s1, obj, a, b) <==> OthersFit(s, obj, a, b))
  {
    var s1 := Fetch(s, name, true).0;
    forall site: Site ensures SiteFits(s1, site) <==> SiteFits(s, site) {}
  }

  // renaming: callers and the moved function are fixed, but the calls in code brought out from behind an alias are not

  lemma MovedFits(s: State, r: State, a: Name, b: Name, f: FnId, obj: Obj, callee: Obj)
    requires Valid(s) && BindsOnly(s, r, b) && obj.User? && a !in r.table
    requires forall j | j in s.table && j != a :: j in r.table
    requires f in r.fns && r.fns[f].User? && r.fns[f].sites == FixSites(obj.sites, b, callee)
    requires b in r.table && r.table[b] == f && ShapeOf(r.fns[f]) == ShapeOf(callee)
    ensures FnFits(r, f) <==> OthersFit(s, obj, a, b)
  {
    forall j | 0 <= j < |obj.sites|
      ensures SiteFits(r, r.fns[f].sites[j]) <==>
              (obj.sites[j].name != a && obj.sites[j].name != b ==> SiteFits(s, obj.sites[j]))
    {
      var name := obj.sites[j].name;
      if name != a && name != b && name in s.table { assert ShapeKept(s, r, s.table[name]); }
    }
  }

  lemma RenamedPasses(s: State, a: Name, b: Name, fe: FnId, s1: State, f: FnId, r: State)
    requires Valid(s) && fe in s.fns && a in s.table && s.table[a] == fe && b !in s.table
    requires (s1, f) == Moved(s, fe, b in s.replaced) && r == Renamed(s, a, b, fe) && Grows(s, r)
    ensures Passed(s, r, b, f, s1.fns[f]) && a !in r.table
    ensures forall j | j in s.table && j != a :: j in r.table
    ensures s1.fns[f].User? ==> r.fns[f].User? && r.fns[f].sites == FixSites(s1.fns[f].sites, b, s1.fns[f])
  {
    MovedGrows(s, fe, b in s.replaced);
    var s2 := Rebind(s1, (s1.table - {a})[b := f], s1.replaced);
    SettlePasses(s2, b, f);
    forall g ensures PassedAt(s, r, b, f, s1.fns[f], g) { RenamedPassesAt(s, a, b, fe, s1, f, s2, r, g); }
  }

  lemma RenamedPassesAt(s: State, a: Name, b: Name, fe: FnId, s1: State, f: FnId, s2: State, r: State, g: FnId)
    requires Valid(s) && fe in s.fns && (s1, f) == Moved(s, fe, b in s.replaced)
    requires s2 == s1.(table := (s1.table - {a})[b := f])
    requires Visited(r, g) ==>
               Visited(s2, g) && r.fns[g].User? && r.fns[g].sites == FixSites(s2.fns[g].sites, b, s1.fns[f])
    ensures PassedAt(s, r, b, f, s1.fns[f], g)
  {
    if Visited(r, g) && g != f { MovedVisited(s, fe, b in s.replaced, s1, f, a, b, s2, g); }
  }

  lemma SettlePasses(s: State, b: Name, f: FnId)
    requires Valid(s) && f in s.fns && b in s.table && s.table[b] == f
    ensures var r := Settle(s, b, f);
            && r.table == s.table && ShapeOf(r.fns[f]) == ShapeOf(s.fns[f])
            && forall g | Visited(r, g) :: Visited(s, g) && r.fns[g].sites == FixSites(s.fns[g].sites, b, s.fns[f])
    ensures s.fns[f].User? ==> Visited(Settle(s, b, f), f)
  {
    var r := Settle(s, b, f);
    var s1 := FixAll(s, b, f);
    var s2 := Misplace(s1, f, b);
    forall g | Visited(r, g) ensures Visited(s, g) && r.fns[g].sites == FixSites(s.fns[g].sites, b, s.fns[f]) {
      assert Visited(s2, g) && Visited(s1, g) && Visited(s, g);
    }
  }

  lemma MovedVisited(s: State, fe: FnId, internal: bool, s1: State, f: FnId, a: Name, b: Name, s2: State, g: FnId)
    requires Valid(s) && fe in s.fns && (s1, f) == Moved(s, fe, internal)
    requires s2 == s1.(table := (s1.table - {a})[b := f]) && Visited(s2, g) && g != f
    ensures Visited(s, g) && s2.fns[g] == s.fns[g]
  {
    assert g in s.fns;
  }

  lemma RenamedRoomyIff(s: State, a: Name, b: Name, fe: FnId)
    requires Valid(s) && Roomy(s) && fe in s.fns && a in s.table && s.table[a] == fe && b !in s.table
    requires IsInternal(s, a) ==> a in s.replaced
    requires s.fns[fe].Alias? ==> s.fns[fe].inner in s.fns
    ensures Roomy(Renamed(s, a, b, fe)) <==>
              (s.fns[fe].Alias? && b !in s.replaced ==> OthersFit(s, s.fns[s.fns[fe].inner], a, b))
  {
    var r := Renamed(s, a, b, fe);
    var (s1, f) := Moved(s, fe, b in s.replaced);
    RenamedEvolves(s, a, b, fe);
    RenamedPasses(s, a, b, fe, s1, f, r);
    PassedRoomyIff(s, r, b, f, s1.fns[f]);
    if s1.fns[f].User? {
      MovedFits(s, r, a, b, f, s1.fns[f], s1.fns[f]);
      if s.fns[fe].User? {
        assert Visited(s, fe) && FnFits(s, fe);
        assert s1.fns[f].sites == s.fns[fe].sites;
      }
    }
  }

  lemma RenameRoomyIff(s: State, source: Name, target: Name)
    requires Valid(s) && Roomy(s) && Rename(s, source, target).1
    ensures var a, b := Lower(source), Lower(target);
            && a in s.table && Known(s, s.table[a])
            && (Roomy(Rename(s, source, target).0) <==>
                  (s.fns[s.table[a]].Alias? && b !in s.replaced ==>
                     OthersFit(s, s.fns[s.fns[s.table[a]].inner], a, b)))
  {
    var a, b := Lower(source), Lower(target);
    var (s1, fe) := Fetch(s, source, true);
    RenameFetches(s, source);
    RenamedRoomyIff(s1, a, b, fe.value);
    if s.fns[fe.value].Alias? { FetchExact(s, source, s.fns[s.fns[fe.value].inner], a, b); }
  }

  lemma RenameFetches(s: State, source: Name)
    requires Valid(s) && Roomy(s) && Fetch(s, source, true).1.Some?
    ensures var (s1, fe) := Fetch(s, source, true);
            && Valid(s1) && Roomy(s1) && s1.table == s.table && Lower(source) in s.table
            && s.table[Lower(source)] == fe.value
            && Known(s, fe.value) && Known(s1, fe.value) && s1.fns[fe.value] == s.fns[fe.value]
            && (s.fns[fe.value].Alias? ==> s1.fns[s.fns[fe.value].inner] == s.fns[s.fns[fe.value].inner])
            && (IsInternal(s1, Lower(source)) ==> Lower(source) in s1.replaced)
            && forall b | b != Lower(source) :: b in s1.replaced <==> b in s.replaced
  {
    var (s1, fe) := Fetch(s, source, true);
    FetchRoomy(s, source, true);
    assert Known(s, fe.value) && Known(s1, fe.value);
  }

  // ----- stack sizes over runs

  /** What must hold before an operation for all reached calls to reserve enough after it. */
  ghost predicate KeepsRoom(s: State, op: Op)
    requires Valid(s) && Enabled(s, op)
  {
    match op
    case DoAdd(name, src) =>
      var n, internal := Lower(name), Lower(name) in s.replaced;
      name != "" && n !in s.table ==>
        && (forall g | Visited(s, g) :: Reserves(s.fns[g], n, CalleeOf(s.fns[src], internal)))
        && (internal || (OthersFit(s, s.fns[src], n, n) && Reserves(s.fns[src], n, s.fns[src])))
    case DoRedefine(name, src) =>
      var n := Lower(name);
      name != "" && n in s.table && !IsInternal(s, n) ==>
        OthersFit(s, s.fns[src], n, n) && Reserves(s.fns[src], n, s.fns[src])
    case DoRename(source, target) =>
      var a, b := Lower(source), Lower(target);
      a in s.table && s.internalOverride && b !in s.table && Known(s, s.table[a]) && s.fns[s.table[a]].Alias?
        && b !in s.replaced ==>
        OthersFit(s, s.fns[s.fns[s.table[a]].inner], a, b)
    case DoCopy(source, target) =>
      var a, b := Lower(source), Lower(target);
      a in s.table && b !in s.table && (IsInternal(s, a) ==> s.internalOverride) ==>
        forall g | Visited(s, g) :: Reserves(s.fns[g], b, s.fns[s.table[a]])
    case Born(_, sites) => forall j | 0 <= j < |sites| :: SiteFits(s, sites[j])
    case Call(_) => Enters(s, op).Some? ==> FnFits(s, Enters(s, op).value)
    case Invoke(f) => FnFits(s, f)
    case _ => true
  }

  /** Only what reserves stack and what names are bound to matters. */
  lemma SameRoom(s: State, r: State, f: FnId)
    requires Valid(s) && r.table == s.table && Grows(s, r) && f in s.fns
    requires s.fns[f].User? ==> f in r.fns && r.fns[f].User? && r.fns[f].sites == s.fns[f].sites
    ensures FnFits(r, f) <==> FnFits(s, f)
  {
    assert ShapeKept(s, r, f);
    if s.fns[f].User? {
      forall j | 0 <= j < |s.fns[f].sites| ensures SiteFits(r, s.fns[f].sites[j]) <==> SiteFits(s, s.fns[f].sites[j]) {
        SameSite(s, r, s.fns[f].sites[j]);
      }
    }
  }

  lemma SameSite(s: State, r: State, site: Site)
    requires Valid(s) && r.table == s.table && Grows(s, r)
    ensures SiteFits(r, site) <==> SiteFits(s, site)
  {
    if site.name in s.table { assert ShapeKept(s, r, s.table[site.name]); }
  }

  /** r differs from s in caches and reach only, and reaches f besides. */
  lemma EnteredRoomyIff(s: State, r: State, f: FnId)
    requires Valid(s) && Roomy(s) && r.table == s.table && Grows(s, r) && f in s.fns && s.fns[f].User?
    requires forall g | g in s.fns && s.fns[g].User? :: g in r.fns && r.fns[g].User? && r.fns[g].sites == s.fns[g].sites
    requires forall g :: Visited(r, g) <==> Visited(s, g) || g == f
    ensures Roomy(r) <==> FnFits(s, f)
  {
    forall g | Visited(s, g) || g == f ensures FnFits(r, g) <==> FnFits(s, g) { SameRoom(s, r, g); }
    assert Visited(r, f);
    forall g | Visited(s, g) ensures FnFits(s, g) {}
  }

  lemma CallRoomyIff(s: State, name: Name)
    requires Valid(s) && Roomy(s) && Found(s, name).Some?
    ensures Roomy(CallName(s, name)) <==> KeepsRoom(s, Call(name))
  {
    var r, e := CallName(s, name), Enters(s, Call(name));
    EngineGrows(s, Call(name));
    RunningVisited(s);
    assert Known(s, Found(s, name).value) || Found(s, name).value !in s.fns;
    if e.Some? {
      EnteredRoomyIff(s, r, e.value);
    } else {
      EnteredRoomyIff(s, r, s.stack[|s.stack| - 1]);
    }
  }

  lemma EngineRoomyIff(s: State, op: Op)
    requires Valid(s) && Enabled(s, op) && Roomy(s) && ByEngine(op)
    ensures Roomy(Step(s, op)) <==> KeepsRoom(s, op)
  {
    var r := Step(s, op);
    EngineGrows(s, op);
    if op.Call? {
      CallRoomyIff(s, op.name);
    } else if op.Invoke? {
      EnteredRoomyIff(s, r, op.f);
    } else if op.Born? {
      var sites := op.sites;
      forall j | 0 <= j < |sites| ensures SiteFits(r, sites[j]) <==> SiteFits(s, sites[j]) { SameSite(s, r, sites[j]); }
      assert Visited(r, s.free) && r.fns[s.free].sites == sites;
      forall f | Visited(r, f) && f != s.free ensures FnFits(r, f) { assert Visited(s, f); SameRoom(s, r, f); }
    } else {
      forall f | Visited(r, f) ensures FnFits(r, f) { assert Visited(s, f); SameRoom(s, r, f); }
    }
  }

  lemma StepRoomyIff(s: State, op: Op)
    requires Valid(s) && Enabled(s, op) && Roomy(s)
    ensures Roomy(Step(s, op)) <==> KeepsRoom(s, op)
  {
    match op
    case DoAdd(name, src) => if Add(s, name, src).1 { AddRoomyIff(s, name, src); }
    case DoRedefine(name, src) => if Redefine(s, name, src).1 { RedefineRoomyIff(s, name, src); }
    case DoRemove(name) => RemoveKeepsRoomy(s, name);
    case DoRename(source, target) =>
      if Rename(s, source, target).1 { RenameRoomyIff(s, source, target); }
    case DoCopy(source, target) => if Copy(s, source, target).1 { CopyRoomyIff(s, source, target); }
    case _ => EngineRoomyIff(s, op);
  }

  ghost predicate IsRoomyRun(s: State, ops: seq<Op>)
    requires IsRun(s, ops)
    decreases |ops|
  {
    ops == [] || (KeepsRoom(s, ops[0]) && IsRoomyRun(Step(s, ops[0]), ops[1..]))
  }

  /** In every run whose steps meet the guard, every reached call reserves enough for its current binding. */
  lemma {:induction false} RunKeepsRoomy(s: State, ops: seq<Op>)
    requires Valid(s) && Roomy(s) && IsRun(s, ops) && IsRoomyRun(s, ops)
    ensures Roomy(Outcome(s, ops))
    decreases |ops|
  {
    if ops != [] {
      StepRoomyIff(s, ops[0]);
      StepEvolves(s, ops[0]);
      RunKeepsRoomy(Step(s, ops[0]), ops[1..]);
    }
  }
}
