/**
 * Runs of all seven operations on class tables: the five on methods, adopt and emancipate.  The declared
 * machine of MethodRuns gets parent links that change.
 */
module ClassRuns {
  import opened Wrappers
  import opened Hierarchy
  import opened Coherence
  import opened MethodOps
  import opened MethodRuns
  import opened Adoption

  datatype ClassOp =
    | Method(op: Op)
    | Adopt(c: ClassId, p: ClassId)
    | Emancipate(c: ClassId)

  /** What the classes declare, and ranks that show their parent links acyclic. */
  datatype Declarations = Declarations(classes: Declared, rank: map<ClassId, nat>)

  predicate DModifiable(d: Declared, c: ClassId) {
    c in d && d[c].kind.UserClass?
  }

  predicate DCanAdopt(d: Declared, c: ClassId, p: ClassId) {
    DModifiable(d, c) && d[c].parent.None? && DModifiable(d, p)
  }

  ghost function ClassDStep(s: Declarations, op: ClassOp): (Declarations, bool)
    requires DRanked(s.classes, s.rank)
  {
    match op
    case Method(m) => (s.(classes := DStep(s.classes, s.rank, m).0), DStep(s.classes, s.rank, m).1)
    case Adopt(c, p) =>
      if !DCanAdopt(s.classes, c, p) then (s, false)
      else (Declarations(Reparent(s.classes, c, Some(p)), AdoptRank(s.classes, s.rank, c, p)), true)
    case Emancipate(c) =>
      if !DModifiable(s.classes, c) then (s, false) else (s.(classes := Reparent(s.classes, c, None)), true)
  }

  /** The guard of a method operation, and that a parent is not adopted from below. */
  ghost predicate ClassGuard(s: Declarations, op: ClassOp)
    requires DRanked(s.classes, s.rank)
  {
    match op
    case Method(m) => Guard(s.classes, s.rank, m)
    case Adopt(c, p) => DCanAdopt(s.classes, c, p) ==> p != c && !Descends(s.classes, s.rank, p, c)
    case Emancipate(_) => true
  }

  /** The engine can go from f to g; adopt and emancipate meet the methods in any order. */
  ghost predicate ClassNext(f: Forest, rank: map<ClassId, nat>, op: ClassOp, g: Forest, ok: bool)
    requires Ranked(f, rank) && DRanked(DeclOf(f), rank)
  {
    match op
    case Method(m) => (g, ok) == Step(f, rank, m)
    case Adopt(c, p) =>
      ok == CanAdopt(f, c, p) && if ok then Adopts(f, AdoptRank(DeclOf(f), rank, c, p), c, p, g) else g == f
    case Emancipate(c) =>
      ok == Modifiable(f, c) && if ok then Emancipates(f, rank, c, g) else g == f
  }

  /** The engine's table f is the flat form of what is declared in s. */
  ghost predicate Represents(f: Forest, s: Declarations) {
    Inv(f) && DeclOf(f) == s.classes && Ranked(f, s.rank) && DRanked(s.classes, s.rank)
  }

  lemma AdoptRefines(f: Forest, s: Declarations, c: ClassId, p: ClassId, g: Forest)
    requires Represents(f, s) && CanAdopt(f, c, p) && p != c && !Descends(s.classes, s.rank, p, c)
    requires Adopts(f, AdoptRank(s.classes, s.rank, c, p), c, p, g)
    ensures Represents(g, Declarations(Reparent(s.classes, c, Some(p)), AdoptRank(s.classes, s.rank, c, p)))
  {
    var up := AdoptRank(s.classes, s.rank, c, p);
    AdoptRanked(s.classes, s.rank, c, p);
    ReparentIndexed(f, c, Some(p));
    RankedDeclared(WithParent(f, c, p), up);
    AdoptsAdopted(f, up, c, p, g);
  }

  lemma EmancipateRefines(f: Forest, s: Declarations, c: ClassId, g: Forest)
    requires Represents(f, s) && Modifiable(f, c) && Emancipates(f, s.rank, c, g)
    ensures Represents(g, s.(classes := Reparent(s.classes, c, None)))
  {
    EmancipatesFreed(f, s.rank, c, g);
    RankedDeclared(g, s.rank);
  }

  /** One guarded operation: same outcome, same declarations, and the tables are their flat form again. */
  lemma ClassStepRefines(f: Forest, s: Declarations, op: ClassOp, g: Forest, ok: bool)
    requires Represents(f, s) && ClassGuard(s, op) && ClassNext(f, s.rank, op, g, ok)
    ensures var (next, done) := ClassDStep(s, op); Represents(g, next) && ok == done
  {
    match op
    case Method(m) =>
      StepRefines(f, s.rank, m);
      RankedDeclared(g, s.rank);
    case Adopt(c, p) =>
      if ok { AdoptRefines(f, s, c, p, g); }
    case Emancipate(c) =>
      if ok { EmancipateRefines(f, s, c, g); }
  }

  // ----- runs

  ghost predicate ClassGuarded(s: Declarations, ops: seq<ClassOp>)
    requires DRanked(s.classes, s.rank)
    decreases |ops|
  {
    ops != [] ==>
      var next := ClassDStep(s, ops[0]).0;
      ClassGuard(s, ops[0]) && DRanked(next.classes, next.rank) && ClassGuarded(next, ops[1..])
  }

  ghost function ClassDRun(s: Declarations, ops: seq<ClassOp>): Declarations
    requires DRanked(s.classes, s.rank)
    decreases |ops|
  {
    if ops == [] then s
    else
      var next := ClassDStep(s, ops[0]).0;
      if DRanked(next.classes, next.rank) then ClassDRun(next, ops[1..]) else next
  }

  /** The engine can go from f to g by these operations; s follows with the ranks. */
  ghost predicate ClassRun(f: Forest, s: Declarations, ops: seq<ClassOp>, g: Forest)
    decreases |ops|
  {
    if ops == [] then g == f
    else
      && Ranked(f, s.rank) && DRanked(DeclOf(f), s.rank) && DRanked(s.classes, s.rank)
      && exists h, ok ::
           ClassNext(f, s.rank, ops[0], h, ok) && ClassRun(h, ClassDStep(s, ops[0]).0, ops[1..], g)
  }

  /**
   * Main result for all seven operations: over every guarded run the tables stay flat and the slots exact, the
   * hierarchy stays acyclic, and one lookup is the walk up the parents as they are now.
   */
  lemma {:induction false} ClassRunRefines(f: Forest, s: Declarations, ops: seq<ClassOp>, g: Forest)
    requires Represents(f, s) && ClassGuarded(s, ops) && ClassRun(f, s, ops, g)
    ensures var after := ClassDRun(s, ops);
            && Represents(g, after)
            && forall c, n | c in g :: Find(g[c].methods, n) == Resolve(after.classes, after.rank, c, n)
    decreases |ops|
  {
    if ops == [] {
      forall c, n | c in g ensures Find(g[c].methods, n) == Resolve(s.classes, s.rank, c, n) {
        LookupResolves(g, s.rank, c, n);
      }
    } else {
      var h, ok :| ClassNext(f, s.rank, ops[0], h, ok) && ClassRun(h, ClassDStep(s, ops[0]).0, ops[1..], g);
      ClassStepRefines(f, s, ops[0], h, ok);
      ClassRunRefines(h, ClassDStep(s, ops[0]).0, ops[1..], g);
    }
  }
}
