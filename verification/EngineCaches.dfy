/**
 * One run of everything that fills, empties or outdates runtime caches: the function operations, the seven
 * operations on classes, calls and method lookups.  Each function has one cache for both kinds of names.
 */
module EngineCaches {
  import opened Wrappers
  import Hierarchy
  import opened ClassRuns
  import MethodRuns
  import MethodOps
  import opened FunctionTable
  import opened FunctionRuns
  import opened FunctionCaches
  import FunctionCalls
  import MethodCaches

  /** `seen` are the method lookups each function remembers. */
  datatype World = World(functions: State, classes: Hierarchy.Forest, seen: map<FnId, MethodCaches.Cache>)

  /** Methods that come and go are the `Born` and `Gone` of the function side. */
  datatype Event =
    | OnFunctions(op: Op)
    | OnClasses(change: ClassOp)
    | Lookup(c: Hierarchy.ClassId, n: Hierarchy.Name)

  function Seen(w: World, f: FnId): MethodCaches.Cache {
    if f in w.seen then w.seen[f] else map[]
  }

  /** Whether the class operation gets as far as clearing the caches. */
  predicate ClassClears(f: Hierarchy.Forest, op: ClassOp, ok: bool) {
    match op
    case Method(m) => MethodCaches.Clears(f, m)
    case Adopt(_, _) => ok
    case Emancipate(c) => ok && c in f && f[c].parent.Some?
  }

  ghost function ClearBoth(w: World): World
    requires Valid(w.functions)
  {
    w.(functions := ClearAll(w.functions), seen := map f | f in w.seen && !Visited(w.functions, f) :: w.seen[f])
  }

  ghost function OnFunctionsStep(w: World, op: Op): World
    requires Valid(w.functions) && Enabled(w.functions, op)
  {
    w.(functions := Step(w.functions, op),
       seen := map f | f in w.seen && !FunctionCalls.Clears(w.functions, op, f) :: w.seen[f])
  }

  function LookupStep(w: World, c: Hierarchy.ClassId, n: Hierarchy.Name): World
    requires w.functions.stack != [] && c in w.classes && n in w.classes[c].methods
  {
    var f := w.functions.stack[|w.functions.stack| - 1];
    if (c, n) in Seen(w, f) then w
    else w.(seen := w.seen[f := Seen(w, f)[(c, n) := w.classes[c].methods[n]]])
  }

  /** The engine can go from w to x; d are the declarations the class table stands for. */
  ghost predicate Next(w: World, d: Declarations, e: Event, x: World)
    requires Valid(w.functions) && Represents(w.classes, d)
  {
    match e
    case OnFunctions(op) => Enabled(w.functions, op) && x == OnFunctionsStep(w, op)
    case OnClasses(op) =>
      exists ok :: && ClassNext(w.classes, d.rank, op, x.classes, ok)
                   && x == (if ClassClears(w.classes, op, ok) then ClearBoth(w) else w).(classes := x.classes)
    case Lookup(c, n) =>
      w.functions.stack != [] && c in w.classes && n in w.classes[c].methods && x == LookupStep(w, c, n)
  }

  ghost function DNext(d: Declarations, e: Event): Declarations
    requires MethodRuns.DRanked(d.classes, d.rank)
  {
    if e.OnClasses? then ClassDStep(d, e.change).0 else d
  }

  ghost predicate EventGuard(d: Declarations, e: Event)
    requires MethodRuns.DRanked(d.classes, d.rank)
  {
    e.OnClasses? ==> ClassGuard(d, e.change)
  }

  /** What f remembers of methods is what the class tables say. */
  ghost predicate SeenRight(w: World, f: FnId) {
    MethodCaches.Right(w.classes, Seen(w, f))
  }

  /** Everything the functions in reach remember is what the tables say. */
  ghost predicate Sound(w: World) {
    Coherent(w.functions) && forall f :: Visited(w.functions, f) ==> SeenRight(w, f)
  }

  ghost predicate WorldInv(w: World, d: Declarations) {
    Valid(w.functions) && Represents(w.classes, d) && w.seen.Keys <= w.functions.fns.Keys
  }

  /** The function that starts to run, if any, remembers nothing outdated of either kind. */
  ghost predicate EntersSound(w: World, e: Event) {
    e.OnFunctions? ==>
      && EntersRight(w.functions, e.op)
      && (Enters(w.functions, e.op).Some? ==> SeenRight(w, Enters(w.functions, e.op).value))
  }

  // ----- events on functions

  /** What an operation brings into reach is new or has just been cleared. */
  lemma NewInReach(s: State, op: Op, f: FnId)
    requires Valid(s) && Enabled(s, op) && !ByEngine(op) && Visited(Step(s, op), f) && f in s.fns
    ensures Visited(s, f) || FunctionCalls.Clears(s, op, f)
  {
    match op
    case DoAdd(name, src) => AddReach(s, name, src, f);
    case DoCopy(source, target) => CopyReach(s, source, target, f);
    case DoRedefine(name, src) => if Redefine(s, name, src).1 { FunctionCalls.RedefineReach(s, name, src, f); }
    case DoRemove(name) =>
    case DoRename(source, target) =>
    case _ =>
  }

  lemma AddReach(s: State, name: Name, src: FnId, f: FnId)
    requires Valid(s) && src in s.fns && f in s.fns && Visited(Add(s, name, src).0, f)
    ensures Visited(s, f)
  {
  }

  lemma CopyReach(s: State, source: Name, target: Name, f: FnId)
    requires Valid(s) && f in s.fns && Visited(Copy(s, source, target).0, f)
    ensures Visited(s, f)
  {
  }

  lemma OperationSeen(w: World, op: Op)
    requires Valid(w.functions) && Enabled(w.functions, op) && !ByEngine(op) && Sound(w)
    requires w.seen.Keys <= w.functions.fns.Keys
    ensures forall f :: Visited(Step(w.functions, op), f) ==> SeenRight(OnFunctionsStep(w, op), f)
  {
    var x := OnFunctionsStep(w, op);
    forall f | Visited(x.functions, f) ensures SeenRight(x, f) {
      if f in w.functions.fns && f in x.seen {
        NewInReach(w.functions, op, f);
        assert SeenRight(w, f) && Seen(x, f) == Seen(w, f);
      }
    }
  }

  /** Between operations only a function that starts to run comes into reach, or a new one. */
  lemma EngineInReach(s: State, op: Op, f: FnId)
    requires Valid(s) && Enabled(s, op) && ByEngine(op) && f in s.fns
    ensures Visited(Step(s, op), f) ==> Visited(s, f) || Enters(s, op) == Some(f)
    ensures Enters(s, op) == Some(f) && s.fns[f].User? ==> Visited(Step(s, op), f)
  {
  }

  lemma EngineSeenIff(w: World, op: Op)
    requires Valid(w.functions) && Enabled(w.functions, op) && ByEngine(op) && Sound(w)
    requires w.seen.Keys <= w.functions.fns.Keys
    ensures (forall f :: Visited(Step(w.functions, op), f) ==> SeenRight(OnFunctionsStep(w, op), f))
            <==> (Enters(w.functions, op).Some? ==> SeenRight(w, Enters(w.functions, op).value))
  {
    var x := OnFunctionsStep(w, op);
    assert x.seen == w.seen;
    forall f | f in w.functions.fns
      ensures Visited(x.functions, f) ==> Visited(w.functions, f) || Enters(w.functions, op) == Some(f)
    {
      EngineInReach(w.functions, op, f);
    }
    forall f | Visited(x.functions, f) && f !in w.functions.fns ensures SeenRight(x, f) {}
    forall f | Visited(w.functions, f) ensures SeenRight(x, f) { assert SeenRight(w, f); }
    var g := Enters(w.functions, op);
    if g.Some? {
      EntersKnown(w.functions, op);
      EngineInReach(w.functions, op, g.value);
      assert SeenRight(x, g.value) <==> SeenRight(w, g.value);
    }
  }

  lemma EntersKnown(s: State, op: Op)
    requires Valid(s) && Enabled(s, op) && Enters(s, op).Some?
    ensures Enters(s, op).value in s.fns && s.fns[Enters(s, op).value].User?
  {
    if op.Call? { assert Known(s, Found(s, op.name).value); }
  }

  lemma FunctionsSoundIff(w: World, d: Declarations, op: Op)
    requires WorldInv(w, d) && Sound(w) && Enabled(w.functions, op)
    ensures WorldInv(OnFunctionsStep(w, op), d)
    ensures Sound(OnFunctionsStep(w, op)) <==> EntersSound(w, OnFunctions(op))
  {
    StepFitsIff(w.functions, op);
    StepEvolves(w.functions, op);
    forall f | f in w.functions.fns ensures f in Step(w.functions, op).fns {
      assert ShapeKept(w.functions, Step(w.functions, op), f);
    }
    if ByEngine(op) { EngineSeenIff(w, op); } else { OperationSeen(w, op); }
  }

  // ----- events on classes

  lemma ClearBothSound(w: World, classes: Hierarchy.Forest)
    requires Valid(w.functions)
    ensures Sound(ClearBoth(w).(classes := classes)) && Valid(ClearBoth(w).functions)
  {
    ClearedFits(w.functions);
    var x := ClearBoth(w).(classes := classes);
    forall f | Visited(x.functions, f) ensures SeenRight(x, f) {
      assert Visited(w.functions, f);
      assert Seen(x, f) == map[];
    }
  }

  /** A class operation that clears nothing changes no lookup that had succeeded. */
  lemma QuietLookups(w: World, d: Declarations, op: ClassOp, g: Hierarchy.Forest, ok: bool, f: FnId)
    requires Represents(w.classes, d) && ClassGuard(d, op) && ClassNext(w.classes, d.rank, op, g, ok)
    requires !ClassClears(w.classes, op, ok) && SeenRight(w, f)
    ensures SeenRight(w.(classes := g), f)
  {
    forall c: Hierarchy.ClassId, n: Hierarchy.Name ensures MethodCaches.Agrees(g, Seen(w, f), c, n) {
      assert MethodCaches.Agrees(w.classes, Seen(w, f), c, n);
      if op.Method? && (c, n) in Seen(w, f) { MethodCaches.QuietStep(w.classes, d.rank, op.op, c, n); }
    }
  }

  lemma ClassesSound(w: World, d: Declarations, op: ClassOp, x: World)
    requires WorldInv(w, d) && Sound(w) && ClassGuard(d, op) && Next(w, d, OnClasses(op), x)
    ensures WorldInv(x, ClassDStep(d, op).0) && Sound(x)
  {
    var ok :| && ClassNext(w.classes, d.rank, op, x.classes, ok)
              && x == (if ClassClears(w.classes, op, ok) then ClearBoth(w) else w).(classes := x.classes);
    ClassStepRefines(w.classes, d, op, x.classes, ok);
    if ClassClears(w.classes, op, ok) {
      ClearBothSound(w, x.classes);
    } else {
      forall f | Visited(x.functions, f) ensures SeenRight(x, f) { QuietLookups(w, d, op, x.classes, ok, f); }
    }
  }

  lemma LookupSound(w: World, d: Declarations, c: Hierarchy.ClassId, n: Hierarchy.Name)
    requires WorldInv(w, d) && Sound(w)
    requires w.functions.stack != [] && c in w.classes && n in w.classes[c].methods
    ensures WorldInv(LookupStep(w, c, n), d) && Sound(LookupStep(w, c, n))
  {
    var x, f := LookupStep(w, c, n), w.functions.stack[|w.functions.stack| - 1];
    RunningVisited(w.functions);
    forall g | Visited(x.functions, g) ensures SeenRight(x, g) {
      assert SeenRight(w, g);
      forall k: Hierarchy.ClassId, m: Hierarchy.Name ensures MethodCaches.Agrees(x.classes, Seen(x, g), k, m) {
        assert MethodCaches.Agrees(w.classes, Seen(w, g), k, m);
      }
    }
  }

  /** Every event keeps all that functions in reach remember right, exactly unless it enters one that is outdated. */
  lemma EventSoundIff(w: World, d: Declarations, e: Event, x: World)
    requires WorldInv(w, d) && Sound(w) && EventGuard(d, e) && Next(w, d, e, x)
    ensures WorldInv(x, DNext(d, e)) && (Sound(x) <==> EntersSound(w, e))
  {
    match e
    case OnFunctions(op) => FunctionsSoundIff(w, d, op);
    case OnClasses(op) => ClassesSound(w, d, op, x);
    case Lookup(c, n) => LookupSound(w, d, c, n);
  }

  // ----- runs

  ghost predicate WorldRun(w: World, d: Declarations, events: seq<Event>, x: World)
    decreases |events|
  {
    if events == [] then x == w
    else
      && WorldInv(w, d) && EventGuard(d, events[0]) && EntersSound(w, events[0])
      && exists v :: Next(w, d, events[0], v) && WorldRun(v, DNext(d, events[0]), events[1..], x)
  }

  /**
   * Over every run of calls, lookups and operations on functions and classes that enters no function with an
   * outdated cache, everything a function in reach remembers is what the tables say.
   */
  lemma {:induction false} RunKeepsSound(w: World, d: Declarations, events: seq<Event>, x: World)
    requires WorldInv(w, d) && Sound(w) && WorldRun(w, d, events, x)
    ensures Valid(x.functions) && Sound(x)
    decreases |events|
  {
    if events != [] {
      var v :| Next(w, d, events[0], v) && WorldRun(v, DNext(d, events[0]), events[1..], x);
      EventSoundIff(w, d, events[0], v);
      RunKeepsSound(v, DNext(d, events[0]), events[1..], x);
    }
  }
}
