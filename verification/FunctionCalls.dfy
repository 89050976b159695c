/**
 * When calls by name run what the function table says, whatever the runtime caches hold: over every run in which
 * no function behind an alias keeps a name that is taken away or rebound.
 */
module FunctionCalls {
  import opened Wrappers
  import opened FunctionTable
  import opened FunctionRuns
  import opened FunctionCaches

  /** Every function that can be called, in reach or not, remembers what the table says. */
  ghost predicate AllRight(s: State) {
    forall f, n :: Callable(s, f) ==> CacheFits(s, f, n)
  }

  /** The operation empties the cache of f: redefine before it binds the name, remove and rename afterwards. */
  ghost predicate Clears(s: State, op: Op, f: FnId)
    requires Valid(s) && Enabled(s, op)
  {
    Upsets(s, op).Some? && Visited(if op.DoRedefine? then s else Step(s, op), f)
  }

  /** A function that stays callable remembers the name that is taken away or rebound, and is not cleared. */
  ghost predicate StaleAt(s: State, op: Op, f: FnId)
    requires Valid(s) && Enabled(s, op)
  {
    && Upsets(s, op).Some? && Cached(s, f, Upsets(s, op).value)
    && Callable(Step(s, op), f) && !Clears(s, op, f)
  }

  ghost predicate LeavesStale(s: State, op: Op)
    requires Valid(s) && Enabled(s, op)
  {
    exists f :: StaleAt(s, op, f)
  }

  // ----- what an operation does to caches

  ghost predicate CacheAfter(s: State, r: State, cleared: bool, f: FnId) {
    f in s.fns && s.fns[f].User? ==>
      f in r.fns && r.fns[f].User? && r.fns[f].cache == if cleared then map[] else s.fns[f].cache
  }

  lemma SameReach(s: State, r: State, f: FnId)
    requires r.table == s.table && r.others == s.others && r.stack == s.stack
    requires f in s.fns && f in r.fns && (r.fns[f].User? <==> s.fns[f].User?)
    ensures Visited(r, f) <==> Visited(s, f)
  {
  }

  lemma RedefineCaches(s: State, name: Name, src: FnId, f: FnId)
    requires Valid(s) && src in s.fns && s.fns[src].User?
    ensures CacheAfter(s, Redefine(s, name, src).0, Redefine(s, name, src).1 && Visited(s, f), f)
  {
    if Redefine(s, name, src).1 && f in s.fns && s.fns[f].User? {
      FetchQuiet(s, name, f);
      FetchQuiet(s, name, src);
      var (s1, orig) := Fetch(s, name, true);
      RedefinedCaches(s1, Lower(name), src, !s1.fns[orig.value].User?, f);
      SameReach(s, s1, f);
    }
  }

  lemma RedefinedCaches(s: State, n: Name, src: FnId, internal: bool, f: FnId)
    requires Valid(s) && src in s.fns && f in s.fns && s.fns[f].User?
    ensures CacheAfter(s, Redefined(s, n, src, internal), Visited(s, f), f)
  {
    var (s1, c) := Clone(s, src, internal);
    CloneGrows(s, src, internal);
    assert s1.fns[f] == s.fns[f];
    SameReach(s, s1, f);
    SameReach(s1, ClearAll(s1), f);
  }

  lemma RemoveCaches(s: State, name: Name, f: FnId)
    requires Valid(s)
    ensures CacheAfter(s, Remove(s, name).0, Remove(s, name).1 && Visited(Remove(s, name).0, f), f)
  {
    if Remove(s, name).1 && f in s.fns && s.fns[f].User? {
      FetchQuiet(s, name, f);
      var s1 := Fetch(s, name, true).0;
      var s2 := s1.(table := s1.table - {Lower(name)});
      ValidTable(s1, s2, s2.table);
      SameReach(s2, ClearAll(s2), f);
    }
  }

  lemma RenameCaches(s: State, source: Name, target: Name, f: FnId)
    requires Valid(s)
    ensures CacheAfter(s, Rename(s, source, target).0,
                       Rename(s, source, target).1 && Visited(Rename(s, source, target).0, f), f)
  {
    if Rename(s, source, target).1 && f in s.fns && s.fns[f].User? {
      FetchQuiet(s, source, f);
      var (s1, fe) := Fetch(s, source, true);
      RenamedCaches(s1, Lower(source), Lower(target), fe.value, f);
    }
  }

  lemma RenamedCaches(s: State, a: Name, b: Name, fe: FnId, f: FnId)
    requires Valid(s) && fe in s.fns && f in s.fns && s.fns[f].User?
    ensures CacheAfter(s, Renamed(s, a, b, fe), Visited(Renamed(s, a, b, fe), f), f)
  {
    var (s1, g) := Moved(s, fe, b in s.replaced);
    MovedExact(s, fe, b in s.replaced, f);
    SettleCaches(Rebind(s1, (s1.table - {a})[b := g], s1.replaced), b, g, f);
  }

  lemma SettleCaches(s: State, b: Name, g: FnId, f: FnId)
    requires Valid(s) && g in s.fns && f in s.fns && s.fns[f].User?
    ensures CacheAfter(s, Settle(s, b, g), Visited(Settle(s, b, g), f), f)
  {
    var s1 := FixAll(s, b, g);
    var s2 := Misplace(s1, g, b);
    assert s2.fns[f].cache == s.fns[f].cache;
    SameReach(s2, ClearAll(s2), f);
  }

  lemma AddCaches(s: State, name: Name, src: FnId, f: FnId)
    requires Valid(s) && src in s.fns
    ensures CacheAfter(s, Add(s, name, src).0, false, f)
  {
  }

  lemma CopyCaches(s: State, source: Name, target: Name, f: FnId)
    requires Valid(s)
    ensures CacheAfter(s, Copy(s, source, target).0, false, f)
  {
  }

  lemma CachesAfter(s: State, op: Op, f: FnId)
    requires Valid(s) && Enabled(s, op) && !ByEngine(op)
    ensures CacheAfter(s, Step(s, op), Clears(s, op, f), f)
  {
    match op
    case DoRedefine(name, src) => RedefineCaches(s, name, src, f);
    case DoRemove(name) => RemoveCaches(s, name, f);
    case DoRename(source, target) => RenameCaches(s, source, target, f);
    case DoAdd(name, src) => AddCaches(s, name, src, f);
    case DoCopy(source, target) => CopyCaches(s, source, target, f);
    case _ =>
  }

  // ----- what an operation does to bindings

  /** Only the name an operation takes away or rebinds is bound otherwise. */
  ghost predicate TableAfter(s: State, r: State, upset: Option<Name>, n: Name) {
    n in s.table ==> (Find(r.table, n) == Some(s.table[n]) <==> upset != Some(n))
  }

  lemma RedefineTable(s: State, name: Name, src: FnId, n: Name)
    requires Valid(s) && src in s.fns && s.fns[src].User?
    ensures TableAfter(s, Redefine(s, name, src).0, if Redefine(s, name, src).1 then Some(Lower(name)) else None, n)
    ensures Redefine(s, name, src).1 ==> Lower(name) in s.table
  {
    if Redefine(s, name, src).1 {
      FetchQuiet(s, name, src);
      var (s1, orig) := Fetch(s, name, true);
      if n in s.table { FetchQuiet(s, name, s.table[n]); }
      RedefinedTable(s1, Lower(name), src, !s1.fns[orig.value].User?, n);
    }
  }

  lemma RedefinedTable(s: State, j: Name, src: FnId, internal: bool, n: Name)
    requires Valid(s) && src in s.fns && j in s.table
    ensures TableAfter(s, Redefined(s, j, src, internal), Some(j), n)
  {
    CloneGrows(s, src, internal);
  }

  lemma RenameTable(s: State, source: Name, target: Name, n: Name)
    requires Valid(s)
    ensures var (r, ok) := Rename(s, source, target);
            && TableAfter(s, r, if ok then Some(Lower(source)) else None, n)
            && (ok ==> Lower(source) in s.table && Lower(target) !in s.table)
  {
    if Rename(s, source, target).1 { RenameMovesBody(s, source, target); }
  }

  lemma TablesAfter(s: State, op: Op, n: Name)
    requires Valid(s) && Enabled(s, op)
    ensures TableAfter(s, Step(s, op), Upsets(s, op), n)
    ensures Upsets(s, op).Some? ==> Upsets(s, op).value in s.table
  {
    match op
    case DoRedefine(name, src) => RedefineTable(s, name, src, n);
    case DoRemove(name) => FetchEvolves(s, name, true);
    case DoRename(source, target) => RenameTable(s, source, target, n);
    case DoAdd(name, src) =>
    case DoCopy(source, target) =>
    case _ => if ByEngine(op) { EngineGrows(s, op); }
  }

  /** An alias bound in r forwards to a new function, or to one that could be called before. */
  ghost predicate AliasFrom(s: State, r: State, j: Name) {
    j in r.table && r.table[j] in r.fns && r.fns[r.table[j]].Alias? ==>
      r.fns[r.table[j]].inner !in s.fns || Callable(s, r.fns[r.table[j]].inner)
  }

  /** New functions start with an empty cache. */
  ghost predicate EmptyIfNew(s: State, r: State, f: FnId) {
    f in r.fns && f !in s.fns && r.fns[f].User? ==> r.fns[f].cache == map[]
  }

  lemma BoundAlias(s: State, r: State, j: Name, k: Name)
    requires Valid(s) && Grows(s, r) && j in r.table && k in s.table && r.table[j] == s.table[k]
    ensures AliasFrom(s, r, j)
  {
    assert ShapeKept(s, r, s.table[k]) && Known(s, s.table[k]);
  }

  lemma CloneNew(s: State, f: FnId, internal: bool)
    requires Valid(s) && f in s.fns
    ensures var (r, c) := Clone(s, f, internal);
            && c !in s.fns && (forall g :: EmptyIfNew(s, r, g))
            && (r.fns[c].Alias? ==> r.fns[c].inner !in s.fns || s.fns[f] == Alias(r.fns[c].inner))
  {
  }

  lemma AddNew(s: State, name: Name, src: FnId)
    requires Valid(s) && src in s.fns && s.fns[src].User?
    ensures var r := Add(s, name, src).0; (forall f :: EmptyIfNew(s, r, f)) && forall j :: AliasFrom(s, r, j)
  {
    var r := Add(s, name, src).0;
    AddEvolves(s, name, src);
    CloneNew(s, src, Lower(name) in s.replaced);
    forall j ensures AliasFrom(s, r, j) {
      if j in s.table && j in r.table && r.table[j] == s.table[j] { BoundAlias(s, r, j, j); }
    }
  }

  lemma CopyNew(s: State, source: Name, target: Name)
    requires Valid(s)
    ensures var r := Copy(s, source, target).0; (forall f :: EmptyIfNew(s, r, f)) && forall j :: AliasFrom(s, r, j)
  {
    var r := Copy(s, source, target).0;
    CopyEvolves(s, source, target);
    if Copy(s, source, target).1 {
      var a, b := Lower(source), Lower(target);
      var fe := s.table[a];
      assert Known(s, fe);
      CloneNew(Misplace(s, fe, b), fe, !s.fns[fe].User?);
      assert s.fns[fe].Alias? ==> Callable(s, s.fns[fe].inner);
    }
    forall j ensures AliasFrom(s, r, j) {
      if j in s.table && j in r.table && r.table[j] == s.table[j] { BoundAlias(s, r, j, j); }
    }
  }

  /** The passes make no function and fill no cache. */
  ghost predicate Emptier(s: State, r: State) {
    forall f | f in r.fns && r.fns[f].User? ::
      f in s.fns && s.fns[f].User? && (r.fns[f].cache == s.fns[f].cache || r.fns[f].cache == map[])
  }

  lemma StillEmpty(s: State, m: State, r: State)
    requires (forall f :: EmptyIfNew(s, m, f)) && Emptier(m, r)
    ensures forall f :: EmptyIfNew(s, r, f)
  {
    forall f ensures EmptyIfNew(s, r, f) { assert EmptyIfNew(s, m, f); }
  }

  lemma RedefinedEmpty(s: State, n: Name, src: FnId, internal: bool)
    requires Valid(s) && src in s.fns
    ensures forall f :: EmptyIfNew(s, Redefined(s, n, src, internal), f)
  {
    var (s1, c) := Clone(s, src, internal);
    CloneNew(s, src, internal);
    assert Emptier(s1, FixAll(ClearAll(s1), n, c));
    StillEmpty(s, s1, FixAll(ClearAll(s1), n, c));
    forall f ensures EmptyIfNew(s, Redefined(s, n, src, internal), f) {
      assert EmptyIfNew(s, FixAll(ClearAll(s1), n, c), f);
    }
  }

  lemma RedefinedAlias(s: State, n: Name, src: FnId, internal: bool, r: State)
    requires Valid(s) && src in s.fns && s.fns[src].User? && r == Redefined(s, n, src, internal) && Grows(s, r)
    requires r.table == s.table[n := Clone(s, src, internal).1]
    ensures forall j :: AliasFrom(s, r, j)
  {
    var (s1, c) := Clone(s, src, internal);
    CloneNew(s, src, internal);
    BothPassesGrow(s1, n, c);
    assert ShapeKept(s1, FixAll(ClearAll(s1), n, c), c);
    forall j ensures AliasFrom(s, r, j) {
      if j in s.table && j != n { BoundAlias(s, r, j, j); }
    }
  }

  lemma RedefineNew(s: State, name: Name, src: FnId)
    requires Valid(s) && src in s.fns && s.fns[src].User? && Redefine(s, name, src).1
    ensures var r := Redefine(s, name, src).0; (forall f :: EmptyIfNew(s, r, f)) && forall j :: AliasFrom(s, r, j)
  {
    var r := Redefine(s, name, src).0;
    var (s1, orig) := Fetch(s, name, true);
    FetchEvolves(s, name, true);
    RedefineEvolves(s, name, src);
    assert ShapeKept(s, s1, src) && ShapeKept(s, s1, orig.value);
    var internal := !s1.fns[orig.value].User?;
    RedefinedEvolves(s1, Lower(name), src, internal);
    RedefinedEmpty(s1, Lower(name), src, internal);
    RedefinedAlias(s1, Lower(name), src, internal, r);
    FromFetch(s, name, r);
  }

  /** The fetch may save a clone that is no user function; it makes nothing callable. */
  lemma FromFetch(s: State, name: Name, r: State)
    requires Valid(s)
    requires var s1 := Fetch(s, name, true).0; (forall f :: EmptyIfNew(s1, r, f)) && forall j :: AliasFrom(s1, r, j)
    requires Grows(Fetch(s, name, true).0, r)
    ensures (forall f :: EmptyIfNew(s, r, f)) && forall j :: AliasFrom(s, r, j)
  {
    var s1 := Fetch(s, name, true).0;
    forall f ensures EmptyIfNew(s, r, f) {
      assert EmptyIfNew(s1, r, f);
      if f in s1.fns { assert ShapeKept(s1, r, f); }
    }
    forall j ensures AliasFrom(s, r, j) {
      assert AliasFrom(s1, r, j);
      forall f | Callable(s1, f) ensures Callable(s, f) { FetchCallable(s, name, f); }
    }
  }

  lemma FetchCallable(s: State, name: Name, f: FnId)
    requires Valid(s) && Callable(Fetch(s, name, true).0, f)
    ensures Callable(s, f)
  {
    var s1 := Fetch(s, name, true).0;
    FetchEvolves(s, name, true);
    if Visited(s1, f) {
      assert f in s.fns;
      SameReach(s, s1, f);
    } else {
      var n :| n in s1.table && s1.table[n] in s1.fns && s1.fns[s1.table[n]] == Alias(f);
      assert Known(s, s.table[n]);
    }
  }

  lemma MovedEmpty(s: State, fe: FnId, internal: bool)
    requires Valid(s) && fe in s.fns
    ensures forall f :: EmptyIfNew(s, Moved(s, fe, internal).0, f)
  {
    CloneNew(s, fe, internal);
    assert Known(s, fe);
    forall f ensures EmptyIfNew(s, Moved(s, fe, internal).0, f) {
      assert EmptyIfNew(s, Clone(s, fe, internal).0, f);
    }
  }

  lemma SettleEmptier(s: State, b: Name, g: FnId)
    requires Valid(s) && g in s.fns
    ensures Emptier(s, Settle(s, b, g))
  {
    var s1 := FixAll(s, b, g);
    assert Emptier(s, s1) && Emptier(s1, Misplace(s1, g, b));
  }

  lemma RenamedEmpty(s: State, a: Name, b: Name, fe: FnId)
    requires Valid(s) && fe in s.fns
    ensures forall f :: EmptyIfNew(s, Renamed(s, a, b, fe), f)
  {
    var (s1, g) := Moved(s, fe, b in s.replaced);
    var s2 := Rebind(s1, (s1.table - {a})[b := g], s1.replaced);
    MovedEmpty(s, fe, b in s.replaced);
    forall f ensures EmptyIfNew(s, s2, f) { assert EmptyIfNew(s, s1, f); }
    SettleEmptier(s2, b, g);
    StillEmpty(s, s2, Settle(s2, b, g));
  }

  lemma RenameNew(s: State, source: Name, target: Name)
    requires Valid(s) && Rename(s, source, target).1
    ensures var r := Rename(s, source, target).0; (forall f :: EmptyIfNew(s, r, f)) && forall j :: AliasFrom(s, r, j)
  {
    var a, b, r := Lower(source), Lower(target), Rename(s, source, target).0;
    var (s1, fe) := Fetch(s, source, true);
    FetchEvolves(s, source, true);
    assert ShapeKept(s, s1, fe.value);
    RenamedEvolves(s1, a, b, fe.value);
    RenamedEmpty(s1, a, b, fe.value);
    RenamedBinds(s1, a, b, fe.value);
    RenamedAlias(s1, a, b, fe.value, r);
    FromFetch(s, source, r);
  }

  lemma RenamedBinds(s: State, a: Name, b: Name, fe: FnId)
    requires Valid(s) && fe in s.fns
    ensures Renamed(s, a, b, fe).table == (s.table - {a})[b := Moved(s, fe, b in s.replaced).1]
  {
    MovedGrows(s, fe, b in s.replaced);
    var (s1, g) := Moved(s, fe, b in s.replaced);
    SettleGrows(Rebind(s1, (s1.table - {a})[b := g], s1.replaced), b, g);
  }

  lemma RenamedAlias(s: State, a: Name, b: Name, fe: FnId, r: State)
    requires Valid(s) && fe in s.fns && a in s.table && s.table[a] == fe && b !in s.table && Grows(s, r)
    requires r == Renamed(s, a, b, fe) && r.table == (s.table - {a})[b := Moved(s, fe, b in s.replaced).1]
    ensures forall j :: AliasFrom(s, r, j)
  {
    var g := Moved(s, fe, b in s.replaced).1;
    assert Known(s, fe);
    forall j ensures AliasFrom(s, r, j) {
      if j in r.table && j != b {
        BoundAlias(s, r, j, j);
      } else if j == b && s.fns[fe].User? {
        MovedClone(s, a, b, fe, r);
      } else if j == b && g == fe {
        BoundAlias(s, r, b, a);
      } else if j == b {
        assert ShapeKept(s, r, g);
      }
    }
  }

  lemma MovedClone(s: State, a: Name, b: Name, fe: FnId, r: State)
    requires Valid(s) && fe in s.fns && s.fns[fe].User? && r == Renamed(s, a, b, fe)
    requires r.table == (s.table - {a})[b := Moved(s, fe, b in s.replaced).1]
    ensures AliasFrom(s, r, b)
  {
    var (s1, g) := Moved(s, fe, b in s.replaced);
    CloneNew(s, fe, b in s.replaced);
    SettleGrows(Rebind(s1, r.table, s1.replaced), b, g);
    assert ShapeKept(Rebind(s1, r.table, s1.replaced), r, g);
  }

  lemma RemoveNew(s: State, name: Name)
    requires Valid(s)
    ensures var r := Remove(s, name).0; (forall f :: EmptyIfNew(s, r, f)) && forall j :: AliasFrom(s, r, j)
  {
    var r := Remove(s, name).0;
    RemoveEvolves(s, name);
    FetchEvolves(s, name, true);
    forall j ensures AliasFrom(s, r, j) {
      if j in r.table { BoundAlias(s, r, j, j); }
    }
  }

  lemma OperationNew(s: State, op: Op)
    requires Valid(s) && Enabled(s, op) && !ByEngine(op)
    ensures var r := Step(s, op); (forall f :: EmptyIfNew(s, r, f)) && forall j :: AliasFrom(s, r, j)
  {
    match op
    case DoAdd(name, src) => AddNew(s, name, src);
    case DoCopy(source, target) => CopyNew(s, source, target);
    case DoRemove(name) => RemoveNew(s, name);
    case DoRedefine(name, src) => if Redefine(s, name, src).1 { RedefineNew(s, name, src); } else { NothingNew(s); }
    case DoRename(source, target) =>
      if Rename(s, source, target).1 { RenameNew(s, source, target); } else { NothingNew(s); }
    case _ =>
  }

  lemma NothingNew(s: State)
    requires Valid(s)
    ensures (forall f :: EmptyIfNew(s, s, f)) && forall j :: AliasFrom(s, s, j)
  {
    SameEvolves(s);
    forall j ensures AliasFrom(s, s, j) {
      if j in s.table { BoundAlias(s, s, j, j); }
    }
  }

  // ----- one step

  /** A function that can be called, but is not in reach, could be called before or is new. */
  lemma CallableBefore(s: State, r: State, f: FnId)
    requires (forall j :: AliasFrom(s, r, j)) && Callable(r, f) && !Visited(r, f)
    ensures f in s.fns ==> Callable(s, f)
  {
    var n :| n in r.table && r.table[n] in r.fns && r.fns[r.table[n]] == Alias(f);
    assert AliasFrom(s, r, n);
  }

  lemma OutOfReachRight(s: State, op: Op, f: FnId)
    requires Valid(s) && Enabled(s, op) && AllRight(s) && !ByEngine(op)
    requires Callable(Step(s, op), f) && !Visited(Step(s, op), f)
    ensures (forall n :: CacheFits(Step(s, op), f, n)) <==> !StaleAt(s, op, f)
  {
    var r := Step(s, op);
    OperationNew(s, op);
    CachesAfter(s, op, f);
    CallableBefore(s, r, f);
    assert EmptyIfNew(s, r, f);
    StepEvolves(s, op);
    if f in s.fns {
      assert ShapeKept(s, r, f);
      forall n ensures CacheFits(r, f, n) <==> !(StaleAt(s, op, f) && Upsets(s, op) == Some(n)) {
        TablesAfter(s, op, n);
        assert CacheFits(s, f, n);
      }
    }
  }

  lemma RedefineReach(s: State, name: Name, src: FnId, f: FnId)
    requires Valid(s) && src in s.fns && s.fns[src].User? && Redefine(s, name, src).1
    requires f in s.fns && Visited(Redefine(s, name, src).0, f)
    ensures Visited(s, f)
  {
    FetchQuiet(s, name, f);
    FetchQuiet(s, name, src);
    RedefineEvolves(s, name, src);
    assert ShapeKept(s, Redefine(s, name, src).0, f);
    var (s1, orig) := Fetch(s, name, true);
    CloneGrows(s1, src, !s1.fns[orig.value].User?);
  }

  lemma StaleOutOfReach(s: State, op: Op, f: FnId)
    requires Valid(s) && Enabled(s, op) && StaleAt(s, op, f)
    ensures !Visited(Step(s, op), f)
  {
    if op.DoRedefine? && Visited(Step(s, op), f) { RedefineReach(s, op.name, op.src, f); }
  }

  lemma OperationRightIff(s: State, op: Op)
    requires Valid(s) && Enabled(s, op) && AllRight(s) && !ByEngine(op)
    ensures AllRight(Step(s, op)) <==> !LeavesStale(s, op)
  {
    var r := Step(s, op);
    assert Coherent(s) by { forall f, n | Visited(s, f) ensures CacheFits(s, f, n) { assert Callable(s, f); } }
    StepFitsIff(s, op);
    forall f | Callable(r, f) && !Visited(r, f) ensures (forall n :: CacheFits(r, f, n)) <==> !StaleAt(s, op, f) {
      OutOfReachRight(s, op, f);
    }
    forall f | StaleAt(s, op, f) ensures Callable(r, f) && !Visited(r, f) { StaleOutOfReach(s, op, f); }
    if !LeavesStale(s, op) {
      forall f, n | Callable(r, f) ensures CacheFits(r, f, n) { assert !StaleAt(s, op, f); }
    }
  }

  // ----- what the engine does between operations

  /** r and s have the same bindings, and every function that can be called in r could be in s, or is new. */
  lemma EngineCallable(s: State, r: State, f: FnId)
    requires Valid(s) && Grows(s, r) && r.table == s.table && Callable(r, f) && f in s.fns
    requires forall g | g in r.others || g in r.stack :: g in s.fns && s.fns[g].User? ==> Callable(s, g)
    ensures Callable(s, f)
  {
    assert ShapeKept(s, r, f);
    if !(f in r.others || f in r.stack) {
      if n :| n in r.table && r.table[n] == f {
        assert Visited(s, f);
      } else {
        var n :| n in r.table && r.table[n] in r.fns && r.fns[r.table[n]] == Alias(f);
        assert ShapeKept(s, r, s.table[n]);
      }
    }
  }

  /** What the running function finds is bound to the name, so what the call enters was callable. */
  lemma FoundBound(s: State, name: Name)
    requires Valid(s) && AllRight(s) && Found(s, name).Some?
    ensures Found(s, name) == Find(s.table, name) && name in s.table
    ensures Enters(s, Call(name)).Some? ==> Callable(s, Enters(s, Call(name)).value)
  {
    var f := s.stack[|s.stack| - 1];
    RunningVisited(s);
    assert Callable(s, f) && CacheFits(s, f, name);
    assert Find(s.table, name) == Some(s.table[name]);
    assert Known(s, s.table[name]);
    if Enters(s, Call(name)) == Some(s.table[name]) { assert Visited(s, s.table[name]); }
  }

  lemma EngineRight(s: State, op: Op)
    requires Valid(s) && Enabled(s, op) && AllRight(s) && ByEngine(op)
    ensures AllRight(Step(s, op))
  {
    var r := Step(s, op);
    EngineGrows(s, op);
    if op.Call? { FoundBound(s, op.name); }
    forall g | g in r.others || g in r.stack ensures g in s.fns && s.fns[g].User? ==> Callable(s, g) {
      EngineReach(s, op, g);
    }
    forall f, n | Callable(r, f) ensures CacheFits(r, f, n) {
      if f in s.fns {
        EngineCallable(s, r, f);
        assert CacheFits(s, f, n);
        EngineCache(s, op, f, n);
      }
    }
  }

  lemma EngineReach(s: State, op: Op, g: FnId)
    requires Valid(s) && Enabled(s, op) && ByEngine(op) && (g in Step(s, op).others || g in Step(s, op).stack)
    requires Enters(s, op).Some? ==> Callable(s, Enters(s, op).value)
    ensures g in s.fns && s.fns[g].User? ==> Callable(s, g)
  {
    var r := Step(s, op);
    if g in r.others && g in s.others && g in s.fns && s.fns[g].User? { assert Visited(s, g); }
    if g in r.stack && g in s.stack { assert Visited(s, g); }
  }

  lemma EngineCache(s: State, op: Op, f: FnId, n: Name)
    requires Valid(s) && Enabled(s, op) && ByEngine(op) && f in s.fns && CacheFits(s, f, n)
    ensures CacheFits(Step(s, op), f, n)
  {
  }

  /** Every cache that matters stays right, exactly unless a function that stays callable keeps an upset name. */
  lemma StepRightIff(s: State, op: Op)
    requires Valid(s) && Enabled(s, op) && AllRight(s)
    ensures AllRight(Step(s, op)) <==> !LeavesStale(s, op)
  {
    if ByEngine(op) { EngineRight(s, op); } else { OperationRightIff(s, op); }
  }

  // ----- runs

  ghost predicate IsTidyRun(s: State, ops: seq<Op>)
    requires IsRun(s, ops)
    decreases |ops|
  {
    ops == [] || (!LeavesStale(s, ops[0]) && IsTidyRun(Step(s, ops[0]), ops[1..]))
  }

  /**
   * Over every run that leaves no stale name behind an alias, functions entered and left at will, calls by name
   * run what the table binds at that moment: the runtime caches cannot be told from having none.
   */
  lemma {:induction false} RunCallsCurrent(s: State, ops: seq<Op>)
    requires Valid(s) && AllRight(s) && IsRun(s, ops) && IsTidyRun(s, ops)
    ensures var after := Outcome(s, ops);
            && Valid(after) && AllRight(after)
            && forall name :: Found(after, name).Some? ==> Found(after, name) == Find(after.table, name)
    decreases |ops|
  {
    if ops == [] {
      forall name | Found(s, name).Some? ensures Found(s, name) == Find(s.table, name) { FoundBound(s, name); }
    } else {
      StepRightIff(s, ops[0]);
      StepEvolves(s, ops[0]);
      RunCallsCurrent(Step(s, ops[0]), ops[1..]);
    }
  }
}
