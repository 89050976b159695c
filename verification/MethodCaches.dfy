/**
 * Cached method lookups over guarded runs of the method operations: an operation that does
 * not clear the runtime caches changes no lookup that had succeeded.
 */
module MethodCaches {
  import opened Wrappers
  import opened Hierarchy
  import opened Coherence
  import opened MethodOps
  import opened MethodRuns

  /**
   * What the runtime cache of one function remembers: the method found for a class and a name.  Every clearing
   * reaches the function here; EngineCaches has the functions that come into reach only when they run.
   */
  type Cache = map<(ClassId, Name), Func>

  /** A cached lookup is what the table of the class says. */
  predicate Agrees(f: Forest, cache: Cache, c: ClassId, n: Name) {
    (c, n) in cache ==> c in f && Find(f[c].methods, n) == Some(cache[(c, n)])
  }

  ghost predicate Right(f: Forest, cache: Cache) {
    forall c: ClassId, n: Name :: Agrees(f, cache, c, n)
  }

  /** Whether the operation gets as far as clearing the caches; a copy does so only over an inherited name. */
  predicate Clears(f: Forest, op: Op) {
    match op
    case Add(c, n, _, _) => Modifiable(f, c) && !Own(f, c, n)
    case Redefine(c, n, _, _, active) => HasUserMethod(f, c, n) && f[c].methods[n].id !in active
    case Copy(dc, dn, sc, sn, _) =>
      HasUserMethod(f, sc, sn) && Modifiable(f, dc) && !Own(f, dc, dn) && dn in f[dc].methods
    case Remove(c, n) => HasUserMethod(f, c, n)
    case Rename(c, n, m, _) => HasUserMethod(f, c, n) && !Own(f, c, m)
  }

  datatype Event = Operate(op: Op) | Lookup(c: ClassId, n: Name)

  ghost predicate Allowed(f: Forest, rank: map<ClassId, nat>, e: Event)
    requires Ranked(f, rank) && DRanked(DeclOf(f), rank)
  {
    match e
    case Operate(op) => Guard(DeclOf(f), rank, op)
    case Lookup(c, n) => c in f && n in f[c].methods
  }

  ghost function Handle(f: Forest, rank: map<ClassId, nat>, cache: Cache, e: Event): (Forest, Cache)
    requires Ranked(f, rank) && (e.Lookup? ==> e.c in f && e.n in f[e.c].methods)
  {
    match e
    case Operate(op) => (Step(f, rank, op).0, if Clears(f, op) then map[] else cache)
    case Lookup(c, n) => (f, if (c, n) in cache then cache else cache[(c, n) := f[c].methods[n]])
  }

  /** Copying onto a name the class does not have leaves every lookup that succeeded as it was. */
  lemma CopyOntoAbsent(f: Forest, rank: map<ClassId, nat>, dc: ClassId, fe: Func, c: ClassId, n: Name)
    requires Ranked(f, rank) && FlatFor(f, fe.name) && dc in f && fe.name !in f[dc].methods
    requires c in f && n in f[c].methods
    ensures c in Place(f, rank, dc, fe) && Find(Place(f, rank, dc, fe)[c].methods, n) == Some(f[c].methods[n])
  {
    DropAbsent(f[dc], fe.name);
    assert f[dc := f[dc]] == f;
    InstallTables(f, rank, dc, Change(dc, fe.name, fe, None), c);
    if n == fe.name { ScopeAbove(f, rank, c, n); }
  }

  lemma HandleKeepsRight(f: Forest, rank: map<ClassId, nat>, cache: Cache, e: Event)
    requires Ranked(f, rank) && DRanked(DeclOf(f), rank) && Inv(f) && Allowed(f, rank, e) && Right(f, cache)
    ensures var (h, after) := Handle(f, rank, cache, e);
            Ranked(h, rank) && DRanked(DeclOf(h), rank) && Inv(h) && Right(h, after)
  {
    var (h, after) := Handle(f, rank, cache, e);
    if e.Operate? {
      StepRefines(f, rank, e.op);
      forall c: ClassId, n: Name ensures Agrees(h, after, c, n) {
        assert Agrees(f, cache, c, n);
        if !Clears(f, e.op) && (c, n) in cache { QuietStep(f, rank, e.op, c, n); }
      }
    } else {
      forall c: ClassId, n: Name ensures Agrees(h, after, c, n) { assert Agrees(f, cache, c, n); }
    }
  }

  /** An operation that clears no cache keeps every lookup that succeeded. */
  lemma QuietStep(f: Forest, rank: map<ClassId, nat>, op: Op, c: ClassId, n: Name)
    requires Ranked(f, rank) && Inv(f) && !Clears(f, op) && c in f && n in f[c].methods
    ensures c in Step(f, rank, op).0 && Find(Step(f, rank, op).0[c].methods, n) == Some(f[c].methods[n])
  {
    if op.Copy? && HasUserMethod(f, op.sc, op.sn) && Modifiable(f, op.dc) && !Own(f, op.dc, op.dn) {
      assert FlatFor(f, op.dn);
      CopyOntoAbsent(f, rank, op.dc, Func(op.id, op.dn, op.dc, f[op.sc].methods[op.sn].body, true), c, n);
    }
  }

  ghost predicate IsRun(f: Forest, rank: map<ClassId, nat>, cache: Cache, events: seq<Event>)
    decreases |events|
  {
    events == [] ||
    (Ranked(f, rank) && DRanked(DeclOf(f), rank) && Allowed(f, rank, events[0]) &&
     var (h, after) := Handle(f, rank, cache, events[0]); IsRun(h, rank, after, events[1..]))
  }

  ghost function Outcome(f: Forest, rank: map<ClassId, nat>, cache: Cache, events: seq<Event>): (Forest, Cache)
    requires IsRun(f, rank, cache, events)
    decreases |events|
  {
    if events == [] then (f, cache)
    else var (h, after) := Handle(f, rank, cache, events[0]); Outcome(h, rank, after, events[1..])
  }

  /** In every run of lookups and guarded method operations, every cached lookup is the current one. */
  lemma {:induction false} RunKeepsRight(f: Forest, rank: map<ClassId, nat>, cache: Cache, events: seq<Event>)
    requires Ranked(f, rank) && DRanked(DeclOf(f), rank) && Inv(f) && Right(f, cache) && IsRun(f, rank, cache, events)
    ensures var (h, after) := Outcome(f, rank, cache, events); Inv(h) && Right(h, after)
    decreases |events|
  {
    if events != [] {
      HandleKeepsRight(f, rank, cache, events[0]);
      var (h, after) := Handle(f, rank, cache, events[0]);
      RunKeepsRight(h, rank, after, events[1..]);
    }
  }
}
