/**
 * Names of functions are compared without regard to ASCII case: spelling a name otherwise
 * changes no operation, and no operation binds, saves or records a name with a capital in it.
 */
module FunctionSpelling {
  import opened Wrappers
  import opened FunctionTable
  import opened FunctionRuns
  import opened FunctionNames

  /** Equal characters, or the capital and the small form of one ASCII letter. */
  predicate SameLetter(a: char, b: char) {
    || a == b
    || ('A' <= a <= 'Z' && b as int == a as int + 32)
    || ('A' <= b <= 'Z' && a as int == b as int + 32)
  }

  predicate SameSpelling(a: Name, b: Name) {
    |a| == |b| && forall i | 0 <= i < |a| :: SameLetter(a[i], b[i])
  }

  predicate NoCapitals(n: Name) {
    forall i | 0 <= i < |n| :: !('A' <= n[i] <= 'Z')
  }

  /** Two names fall together exactly when they differ in ASCII case only. */
  lemma LowerIff(a: Name, b: Name)
    ensures Lower(a) == Lower(b) <==> SameSpelling(a, b)
    ensures NoCapitals(Lower(a)) && SameSpelling(a, Lower(a))
  {
    if Lower(a) == Lower(b) {
      forall i | 0 <= i < |a| ensures SameLetter(a[i], b[i]) { assert Lower(a)[i] == Lower(b)[i]; }
    }
    if SameSpelling(a, b) {
      forall i | 0 <= i < |a| ensures Lower(a)[i] == Lower(b)[i] { assert SameLetter(a[i], b[i]); }
    }
  }

  /** Among names without capitals, being the same up to case is being equal. */
  lemma SpeltOnce(n: Name, m: Name)
    requires NoCapitals(n) && NoCapitals(m) && SameSpelling(n, m)
    ensures n == m
  {
    forall i | 0 <= i < |n| ensures n[i] == m[i] { assert SameLetter(n[i], m[i]); }
  }

  predicate NoCapitalKeys(s: State) {
    forall n | n in s.table :: NoCapitals(n)
  }

  /** Some spelling of the name is bound. */
  ghost predicate Taken(s: State, name: Name) {
    exists n :: n in s.table && SameSpelling(name, n)
  }

  /** Some spelling of it is bound to a function that may be changed. */
  ghost predicate Changeable(s: State, name: Name) {
    exists n :: n in s.table && SameSpelling(name, n)
                && s.table[n] in s.fns && (s.fns[s.table[n]].User? || s.internalOverride)
  }

  lemma TakenIff(s: State, name: Name)
    requires NoCapitalKeys(s)
    ensures Lower(name) in s.table <==> Taken(s, name)
    ensures Open(s, Lower(name)) <==> Changeable(s, name)
  {
    LowerIff(name, name);
    forall n | n in s.table && SameSpelling(name, n) ensures n == Lower(name) {
      LowerIff(name, n);
      LowerIff(n, n);
      SpeltOnce(n, Lower(n));
    }
  }

  /** An operation with its names spelt otherwise. */
  predicate Respelt(op: Op, other: Op) {
    match op
    case DoAdd(name, src) => other.DoAdd? && SameSpelling(name, other.name) && other.src == src
    case DoRedefine(name, src) => other.DoRedefine? && SameSpelling(name, other.name) && other.src == src
    case DoRemove(name) => other.DoRemove? && SameSpelling(name, other.name)
    case DoRename(source, target) =>
      other.DoRename? && SameSpelling(source, other.source) && SameSpelling(target, other.target)
    case DoCopy(source, target) =>
      other.DoCopy? && SameSpelling(source, other.source) && SameSpelling(target, other.target)
    case _ => other == op
  }

  /** The boolean an operation returns. */
  ghost function Succeeds(s: State, op: Op): bool
    requires Valid(s) && Enabled(s, op)
  {
    match op
    case DoAdd(name, src) => Add(s, name, src).1
    case DoRedefine(name, src) => Redefine(s, name, src).1
    case DoRemove(name) => Remove(s, name).1
    case DoRename(source, target) => Rename(s, source, target).1
    case DoCopy(source, target) => Copy(s, source, target).1
    case _ => true
  }

  lemma FetchRespelt(s: State, a: Name, b: Name, change: bool)
    requires Valid(s) && SameSpelling(a, b)
    ensures Fetch(s, a, change) == Fetch(s, b, change) && Lower(a) == Lower(b) && (a == "" <==> b == "")
  {
    LowerIff(a, b);
  }

  /** Spelling the names otherwise changes neither the state after an operation nor its result. */
  lemma StepRespelt(s: State, op: Op, other: Op)
    requires Valid(s) && Enabled(s, op) && Respelt(op, other)
    ensures Enabled(s, other) && Step(s, op) == Step(s, other) && Succeeds(s, op) == Succeeds(s, other)
  {
    match op
    case DoAdd(name, _) => FetchRespelt(s, name, other.name, false);
    case DoRedefine(name, _) => FetchRespelt(s, name, other.name, true);
    case DoRemove(name) => FetchRespelt(s, name, other.name, true);
    case DoRename(source, target) =>
      FetchRespelt(s, source, other.source, true);
      FetchRespelt(s, target, other.target, true);
    case DoCopy(source, target) =>
      FetchRespelt(s, source, other.source, false);
      FetchRespelt(s, target, other.target, false);
    case _ =>
  }

  /** In a table without capitals a name counts as taken, or as known, in every spelling of it. */
  lemma SucceedsIff(s: State, op: Op)
    requires Valid(s) && Enabled(s, op) && NoCapitalKeys(s)
    ensures op.DoAdd? ==> (Succeeds(s, op) <==> op.name != "" && !Taken(s, op.name))
    ensures op.DoRedefine? ==> (Succeeds(s, op) <==> op.name != "" && Changeable(s, op.name))
    ensures op.DoRemove? ==> (Succeeds(s, op) <==> Changeable(s, op.name))
    ensures op.DoRename? || op.DoCopy? ==> (Succeeds(s, op) <==> Changeable(s, op.source) && !Taken(s, op.target))
  {
    match op
    case DoAdd(name, src) => TakenIff(s, name); AddGoes(s, name, src);
    case DoRedefine(name, src) => TakenIff(s, name); RedefineGoes(s, name, src);
    case DoRemove(name) => TakenIff(s, name); RemoveGoes(s, name);
    case DoRename(source, target) => TakenIff(s, source); TakenIff(s, target); RenameGoes(s, source, target);
    case DoCopy(source, target) => TakenIff(s, source); TakenIff(s, target); CopyGoes(s, source, target);
    case _ =>
  }

  // ----- what names are kept

  /** The name is bound, saved or recorded in r, and was not in s. */
  predicate NewlyKept(s: State, r: State, n: Name) {
    || (n in r.table && n !in s.table)
    || (n in r.replaced && n !in s.replaced)
    || (n in r.misplaced && n !in s.misplaced)
  }

  /** Over every run, every name that comes into one of the tables is without capitals. */
  lemma {:induction false} RunKeepsLower(s: State, ops: seq<Op>, n: Name)
    requires IsRun(s, ops) && NewlyKept(s, Outcome(s, ops), n)
    ensures NoCapitals(n)
    decreases |ops|
  {
    if ops != [] {
      var r := Step(s, ops[0]);
      if NewlyKept(s, r, n) {
        StepKeepsLower(s, ops[0], n);
      } else {
        RunKeepsLower(r, ops[1..], n);
      }
    }
  }

  lemma StepKeepsLower(s: State, op: Op, n: Name)
    requires Valid(s) && Enabled(s, op) && NewlyKept(s, Step(s, op), n)
    ensures NoCapitals(n)
  {
    var r := Step(s, op);
    KeptIsGiven(s, op, r, n);
    GivenLower(op, n);
  }

  lemma KeptIsGiven(s: State, op: Op, r: State, n: Name)
    requires Valid(s) && Enabled(s, op) && r == Step(s, op) && NewlyKept(s, r, n)
    ensures Given(op, n)
  {
    if n in r.table && n !in s.table {
      BoundIsGiven(s, op, n);
    } else if n in r.replaced && n !in s.replaced {
      StepSavesNamed(s, op, n);
    } else {
      RecordedIsGiven(s, op, n);
    }
  }

  /** The lower-cased form of a name the operation was given. */
  predicate Given(op: Op, n: Name) {
    match op
    case DoAdd(name, _) => n == Lower(name)
    case DoRedefine(name, _) => n == Lower(name)
    case DoRemove(name) => n == Lower(name)
    case DoRename(source, target) => n == Lower(source) || n == Lower(target)
    case DoCopy(source, target) => n == Lower(source) || n == Lower(target)
    case _ => false
  }

  lemma LowerNoCapitals(name: Name, n: Name)
    requires n == Lower(name)
    ensures NoCapitals(n)
  {
    LowerIff(name, name);
  }

  lemma GivenLower(op: Op, n: Name)
    requires Given(op, n)
    ensures NoCapitals(n)
  {
    if op.DoAdd? || op.DoRedefine? || op.DoRemove? {
      LowerNoCapitals(op.name, n);
    } else {
      LowerNoCapitals(if n == Lower(op.source) then op.source else op.target, n);
    }
  }

  lemma RecordedIsGiven(s: State, op: Op, n: Name)
    requires Valid(s) && Enabled(s, op) && n in Step(s, op).misplaced && n !in s.misplaced
    ensures Given(op, n)
  {
    StepMisplaces(s, op);
  }

  lemma BoundIsGiven(s: State, op: Op, n: Name)
    requires Valid(s) && Enabled(s, op) && n in Step(s, op).table && n !in s.table
    ensures Given(op, n)
  {
    StepResolves(s, op, n);
    assert Resolution(s, n) == None;
  }

  /** A clone is saved only under the lower-cased name the operation was given. */
  lemma StepSavesNamed(s: State, op: Op, n: Name)
    requires Valid(s) && Enabled(s, op) && n in Step(s, op).replaced && n !in s.replaced
    ensures op.DoRedefine? || op.DoRemove? || op.DoRename?
    ensures Given(op, n)
  {
    match op
    case DoAdd(_, _) =>
    case DoRedefine(name, src) => RedefineSaves(s, name, src, n);
    case DoRemove(name) => RemoveSaves(s, name, n);
    case DoRename(source, target) => RenameSaves(s, source, target, n);
    case DoCopy(_, _) =>
    case _ =>
  }

  lemma FetchSaves(s: State, name: Name, n: Name)
    requires Valid(s) && n != Lower(name)
    ensures Find(Fetch(s, name, true).0.replaced, n) == Find(s.replaced, n)
  {
  }

  lemma RedefineSaves(s: State, name: Name, src: FnId, n: Name)
    requires Valid(s) && src in s.fns && n in Redefine(s, name, src).0.replaced && n !in s.replaced
    ensures n == Lower(name)
  {
    if n != Lower(name) {
      FetchSaves(s, name, n);
    }
  }

  lemma RemoveSaves(s: State, name: Name, n: Name)
    requires Valid(s) && n in Remove(s, name).0.replaced && n !in s.replaced
    ensures n == Lower(name)
  {
    if n != Lower(name) {
      FetchSaves(s, name, n);
    }
  }

  lemma RenameSaves(s: State, source: Name, target: Name, n: Name)
    requires Valid(s) && n in Rename(s, source, target).0.replaced && n !in s.replaced
    ensures n == Lower(source)
  {
    if n != Lower(source) {
      FetchSaves(s, source, n);
      var (s1, fe) := Fetch(s, source, true);
      assert n !in s1.replaced;
      if fe.Some? { RenamedMisplaces(s1, Lower(source), Lower(target), fe.value); }
    }
  }
}
