/**
 * When ci/run-tests-parallel.php hands out two tests in the order they were given, whichever worker answers
 * first: an exact condition on the conflict keys alone.
 */
module SchedulerPairs {
  import opened Wrappers
  import opened Scheduler
  import opened SchedulerRuns
  import opened SchedulerOrder

  predicate Distinct(s: seq<Test>) {
    forall i, j | 0 <= i < j < |s| :: s[i] != s[j]
  }

  function Workers(n: nat): (r: set<Worker>)
    ensures |r| == n && forall i :: i in r <==> 1 <= i <= n
  {
    if n == 0 then {} else Workers(n - 1) + {n}
  }

  /** What the script can begin with: each test file once, workers 1 to n, no more of them than files. */
  predicate Begins(cfg: Config, given: seq<Test>, sequential: seq<Test>, n: nat) {
    && Distinct(given) && cfg.total == |given| && 1 <= n && (n == 1 || n <= |given|)
    && (forall t | t in given :: !RunsAlone(cfg, t))
    && (forall t | t in sequential :: RunsAlone(cfg, t))
  }

  lemma PlacesDistinct(at: seq<nat>, part: seq<Test>, whole: seq<Test>)
    requires Places(at, part, whole) && Distinct(whole)
    ensures Distinct(part)
  {
    forall i, j | 0 <= i < j < |part| ensures part[i] != part[j] {
      assert whole[at[i]] == part[i] && whole[at[j]] == part[j] && at[i] < at[j];
    }
  }

  /** What the script sets up without shuffling, from distinct test files, is such a beginning. */
  lemma PlanBegins(disk: Disk, testFiles: seq<Test>, maxWorkers: nat, cfg: Config, files: seq<Test>,
                   sequential: seq<Test>, procs: set<Worker>)
    requires Distinct(testFiles) && cfg.total == |files| == |Select(disk, testFiles, false)|
    requires forall i | 0 <= i < |files| :: files[i] == Select(disk, testFiles, false)[|files| - 1 - i]
    requires sequential == Select(disk, testFiles, true)
    requires forall t | t in testFiles :: t in cfg.conflicts && cfg.conflicts[t] == ConflictsOf(disk, t)
    requires forall i :: i in procs <==> i == 1 || (1 < i <= maxWorkers && i <= |files|)
    ensures var given, n := Select(disk, testFiles, false),
                            if maxWorkers <= 1 || |files| <= 1 then 1
                            else if maxWorkers < |files| then maxWorkers else |files|;
            Begins(cfg, given, sequential, n) && files == Reverse(given) && procs == Workers(n)
  {
    var given := Select(disk, testFiles, false);
    SelectInOrder(disk, testFiles, false);
    var at :| Places(at, given, testFiles);
    PlacesDistinct(at, given, testFiles);
    SelectSplits(disk, testFiles);
    forall t | t in given ensures !RunsAlone(cfg, t) { assert t in testFiles; }
    forall t | t in sequential ensures RunsAlone(cfg, t) { assert t in testFiles; }
    IsReverse(given, files);
  }

  lemma IsReverse(given: seq<Test>, files: seq<Test>)
    requires |files| == |given| && forall i | 0 <= i < |files| :: files[i] == given[|files| - 1 - i]
    ensures files == Reverse(given)
  {
    forall i | 0 <= i < |files| ensures files[i] == Reverse(given)[i] { ReverseAt(given, i); }
  }

  ghost predicate KeptIn(cfg: Config, t: Test, u: Test, given: seq<Test>, sequential: seq<Test>, n: nat,
                         events: seq<Event>) {
    Begins(cfg, given, sequential, n) && IsRun(cfg, Start(Reverse(given), sequential, Workers(n)), events) ==>
      Of(Outcome(cfg, Start(Reverse(given), sequential, Workers(n)), events).log, {t, u}) <= Of(given, {t, u})
  }

  /** At every moment of every run, what is out of t and u is where the order they were given in begins. */
  ghost predicate AlwaysInOrder(cfg: Config, t: Test, u: Test) {
    forall total, valgrind, shuffle, given, sequential, n, events ::
      KeptIn(Config(cfg.conflicts, total, valgrind, shuffle), t, u, given, sequential, n, events)
  }

  // ----- the condition on the keys

  function First(keys: seq<Key>, s: set<Key>): (r: Option<Key>)
    ensures r.Some? ==> r.value in keys && r.value in s
    ensures r.None? <==> forall k | k in keys :: k !in s
  {
    if keys == [] then None
    else
      assert keys == [keys[0]] + keys[1..];
      if keys[0] in s then Some(keys[0]) else First(keys[1..], s)
  }

  predicate Shares(cfg: Config, b: Test, t: Test) {
    exists k :: k in Keys(cfg, b) && k in Keys(cfg, t)
  }

  /** The tests with keys that may be out while t and u are not. */
  function Others(cfg: Config, t: Test, u: Test): set<Test> {
    set b | b in cfg.conflicts && b != t && b != u && !RunsAlone(cfg, b)
  }

  predicate SameFirst(cfg: Config, t: Test, u: Test, s: set<Key>) {
    First(Keys(cfg, t), s) == First(Keys(cfg, u), s)
  }

  /**
   * Any two others keep back t and u at the same key, or not at all; and any two others that each share
   * a key with t share one with each other.
   */
  predicate Aligned(cfg: Config, t: Test, u: Test) {
    && (forall b, c | b in Others(cfg, t, u) && c in Others(cfg, t, u) :: SameFirst(cfg, t, u, KeysOf(cfg, [b, c])))
    && (forall b, c | b in Others(cfg, t, u) && c in Others(cfg, t, u) ::
          Shares(cfg, b, t) && Shares(cfg, c, t) ==> Shares(cfg, b, c))
  }

  lemma {:induction false} FirstIs(keys: seq<Key>, active: map<Key, Worker>)
    ensures FirstActive(keys, active) == First(keys, active.Keys)
  {
    if keys != [] { FirstIs(keys[1..], active); }
  }

  lemma {:induction false} FirstWithin(keys: seq<Key>, s: set<Key>, part: set<Key>)
    requires part <= s && First(keys, s).Some? && First(keys, s).value in part
    ensures First(keys, part) == First(keys, s)
  {
    if keys[0] !in s { FirstWithin(keys[1..], s, part); }
  }

  lemma {:induction false} FirstAgrees(keys: seq<Key>, s: set<Key>, r: set<Key>)
    requires forall k | k in keys :: k in s <==> k in r
    ensures First(keys, s) == First(keys, r)
  {
    if keys != [] {
      assert keys[0] in keys;
      FirstAgrees(keys[1..], s, r);
    }
  }

  // ----- the condition suffices

  /** As long as neither of the two is out, those that wait do so, in order, for the first active key. */
  predicate Lined(cfg: Config, s: State, t: Test, u: Test, given: seq<Test>, q: Key) {
    && OneQueue(s, {t, u}, q) && Line(s, {t, u}, q) == Of(given, {t, u})
    && (Of(Queue(s.waiting, q), {t, u}) != [] ==> First(Keys(cfg, t), s.active.Keys) == Some(q))
  }

  ghost predicate InLine(cfg: Config, sys: System, t: Test, u: Test, given: seq<Test>) {
    if Of(sys.log, {t, u}) == [] then exists q :: Lined(cfg, sys.master, t, u, given, q)
    else Of(given, {t, u}) != [] && Of(sys.log, {t, u})[0] == Of(given, {t, u})[0]
  }

  /** The log lists what is out and what is done. */
  ghost predicate Logged(sys: System) {
    multiset(sys.log) == Pooled(sys.running) + sys.done
  }

  ghost predicate PairInv(cfg: Config, tests: multiset<Test>, sys: System, t: Test, u: Test, given: seq<Test>) {
    Inv(cfg, tests, sys) && Owned(cfg, sys.master, sys.running) && Logged(sys) && InLine(cfg, sys, t, u, given)
  }

  lemma AnswerLogged(sys: System, e: Event)
    requires Enabled(sys, e) && Logged(sys)
    ensures Logged(Answered(sys, e)) && Answered(sys, e).log == sys.log
  {
    if e.TestsFinished? { PooledWithout(sys.running, e.i); }
  }

  lemma DispatchLogged(idle: System, i: Worker, master: State, batch: seq<Test>)
    requires Logged(idle) && i !in idle.running
    ensures Logged(Dispatched(idle, i, master, batch))
  {
    assert multiset(idle.log + batch) == multiset(idle.log) + multiset(batch);
    if batch != [] {
      PooledPut(idle.running, i, batch);
      assert idle.running - {i} == idle.running;
    }
  }

  lemma StepKeepsLogged(cfg: Config, sys: System, e: Event)
    requires Staffed(sys) && Enabled(sys, e) && Logged(sys)
    ensures e.i in sys.master.alive && Logged(Step(cfg, sys, e))
  {
    var (master, batch) := Handle(cfg, e.TestsFinished?, e.i, sys.master);
    AnswerLogged(sys, e);
    DispatchLogged(Answered(sys, e), e.i, master, batch);
  }

  lemma {:induction false} OfCounts(s: seq<Test>, p: set<Test>)
    ensures forall t :: multiset(Of(s, p))[t] == if t in p then multiset(s)[t] else 0
  {
    if s != [] {
      OfCounts(s[1..], p);
      assert s == [s[0]] + s[1..];
      assert multiset(s) == multiset{s[0]} + multiset(s[1..]);
    }
  }

  /** What is out is in the log. */
  lemma RunningLogged(sys: System, w: Worker, b: Test, p: set<Test>)
    requires Logged(sys) && w in sys.running && b in sys.running[w] && Of(sys.log, p) == []
    ensures b !in p
  {
    PooledWithout(sys.running, w);
    OfCounts(sys.log, p);
    assert b in multiset(sys.running[w]);
    assert multiset(sys.log)[b] > 0;
    assert multiset(Of(sys.log, p))[b] == 0;
  }

  predicate OtherBatch(cfg: Config, batch: seq<Test>, t: Test, u: Test) {
    forall b | b in batch :: b != t && b != u && !RunsAlone(cfg, b)
  }

  predicate OnlyOthers(cfg: Config, running: map<Worker, seq<Test>>, t: Test, u: Test) {
    forall w | w in running :: OtherBatch(cfg, running[w], t, u)
  }

  lemma Owner(cfg: Config, s: State, running: map<Worker, seq<Test>>, t: Test, u: Test, k: Key)
    returns (w: Worker, b: Test)
    requires Owned(cfg, s, running) && Coherent(cfg, s, running) && k in s.active
    requires OnlyOthers(cfg, running, t, u)
    ensures w in running && b in running[w] && b in Others(cfg, t, u)
    ensures k in Keys(cfg, b) && forall j | j in Keys(cfg, b) :: j in s.active
  {
    w := s.active[k];
    assert OtherBatch(cfg, running[w], t, u);
    b :| b in running[w] && k in Keys(cfg, b);
    assert BatchFits(cfg, s, running, w);
  }

  lemma BlockedAlike(cfg: Config, s: State, running: map<Worker, seq<Test>>, t: Test, u: Test)
    requires Aligned(cfg, t, u) && Owned(cfg, s, running) && Coherent(cfg, s, running)
    requires OnlyOthers(cfg, running, t, u)
    ensures SameFirst(cfg, t, u, s.active.Keys)
  {
    var x, y := First(Keys(cfg, t), s.active.Keys), First(Keys(cfg, u), s.active.Keys);
    if x.Some? || y.Some? {
      var k := if x.Some? then x.value else y.value;
      var j := if y.Some? then y.value else x.value;
      var v, b := Owner(cfg, s, running, t, u, k);
      var w, c := Owner(cfg, s, running, t, u, j);
      var part := KeysOf(cfg, [b, c]);
      assert SameFirst(cfg, t, u, part);
      assert part <= s.active.Keys && k in part && j in part;
      if x.Some? { FirstWithin(Keys(cfg, t), s.active.Keys, part); }
      if y.Some? { FirstWithin(Keys(cfg, u), s.active.Keys, part); }
    }
  }

  lemma {:induction false} OfEmpty(s: seq<Test>, p: set<Test>)
    requires Of(s, p) == []
    ensures forall t | t in s :: t !in p
  {
    if s != [] {
      OfEmpty(s[1..], p);
      assert s == [s[0]] + s[1..];
    }
  }

  /** With no test of p waiting, any queue may be named. */
  lemma AnyQueue(s: State, p: set<Test>, q: Key, k: Key)
    requires OneQueue(s, p, q) && Of(Queue(s.waiting, q), p) == []
    ensures OneQueue(s, p, k) && Line(s, p, k) == Line(s, p, q) && Of(Queue(s.waiting, k), p) == []
  {
    OfEmpty(Queue(s.waiting, q), p);
    OfNone(Queue(s.waiting, k), p);
  }

  lemma BeforeLined(cfg: Config, tests: multiset<Test>, sys: System, e: Event, t: Test, u: Test, given: seq<Test>,
                    q: Key)
    requires Inv(cfg, tests, sys) && Enabled(sys, e) && Lined(cfg, sys.master, t, u, given, q)
    ensures Lined(cfg, Before(sys, e), t, u, given, q)
  {
    var m, s := sys.master, Before(sys, e);
    BeforeKeepsLine({t, u}, q, sys, e);
    BeforeFits(cfg, tests, sys, e);
    if e.TestsFinished? && Of(Queue(s.waiting, q), {t, u}) != [] {
      ReleaseGivesBack(m.order, e.i, m.active, m.(inProgress := m.inProgress - 1));
      assert KeyFits(cfg, s, sys.running - {e.i}, q);
      FirstWithin(Keys(cfg, t), m.active.Keys, s.active.Keys);
    }
  }

  /** A new batch does not get between the tests that wait and the key they wait for. */
  lemma BatchApart(cfg: Config, s: State, running: map<Worker, seq<Test>>, t: Test, u: Test, q: Key, b: Test, k: Key)
    requires Aligned(cfg, t, u) && Owned(cfg, s, running) && Coherent(cfg, s, running)
    requires OnlyOthers(cfg, running, t, u)
    requires forall w, c | w in running && c in running[w] :: !Shares(cfg, b, c)
    requires b != t && b != u && !RunsAlone(cfg, b)
    requires q in Keys(cfg, t) && q in s.active
    requires k in Keys(cfg, b)
    ensures k !in Keys(cfg, t)
  {
    var w, c := Owner(cfg, s, running, t, u, q);
    assert b in Others(cfg, t, u) && Shares(cfg, c, t);
    assert !Shares(cfg, b, c);
    assert !Shares(cfg, b, t);
  }

  /** Once the first of the two is out, the log begins with it. */
  lemma FirstStays(log: seq<Test>, batch: seq<Test>, p: set<Test>)
    requires Of(log, p) != []
    ensures Of(log + batch, p) != [] && Of(log + batch, p)[0] == Of(log, p)[0]
  {
    OfConcat(log, batch, p);
  }

  lemma OnlyOthersOut(cfg: Config, tests: multiset<Test>, sys: System, e: Event, t: Test, u: Test)
    requires Inv(cfg, tests, sys) && Enabled(sys, e) && Logged(sys) && Of(sys.log, {t, u}) == []
    ensures OnlyOthers(cfg, sys.running - {e.i}, t, u)
  {
    BeforeFits(cfg, tests, sys, e);
    forall w | w in sys.running - {e.i} ensures OtherBatch(cfg, sys.running[w], t, u) {
      forall b | b in sys.running[w] ensures b != t && b != u { RunningLogged(sys, w, b, {t, u}); }
    }
  }

  /** The queue the two wait in, or would wait in, before a batch is taken. */
  lemma LevelPair(cfg: Config, s: State, running: map<Worker, seq<Test>>, t: Test, u: Test, given: seq<Test>, q: Key)
    returns (k: Key)
    requires Aligned(cfg, t, u) && Owned(cfg, s, running) && Coherent(cfg, s, running)
    requires OnlyOthers(cfg, running, t, u) && Lined(cfg, s, t, u, given, q)
    ensures Lined(cfg, s, t, u, given, k)
    ensures Level(cfg, s, {t, u}, k, First(Keys(cfg, t), s.active.Keys))
  {
    var at := First(Keys(cfg, t), s.active.Keys);
    BlockedAlike(cfg, s, running, t, u);
    FirstIs(Keys(cfg, t), s.active);
    FirstIs(Keys(cfg, u), s.active);
    k := q;
    if at.Some? && at.value != q {
      AnyQueue(s, {t, u}, q, at.value);
      k := at.value;
    }
  }

  lemma ScheduleActive(cfg: Config, i: Worker, s: State, r: State, batch: seq<Test>)
    requires i in s.alive && (r, batch) == Schedule(cfg, i, s)
    ensures r.active.Keys == s.active.Keys + KeysOf(cfg, batch)
  {
    var size := BatchSize(cfg, |s.alive|);
    var (taken, files) := Take(cfg, size, Admit(s), []);
    TakeSame(cfg, size, Admit(s), []);
    assert taken.active == s.active;
    if batch == [] {
      assert KeysOf(cfg, batch) == {};
    } else {
      var c := Claim(cfg, batch, i, taken);
      ClaimClaims(cfg, batch, i, taken);
      forall k ensures k in r.active <==> k in s.active.Keys + KeysOf(cfg, batch) {
        assert ClaimedAt(taken, c, KeysOf(cfg, batch), i, k);
        assert k in c.active <==> Find(c.active, k).Some?;
        assert k in taken.active <==> Find(taken.active, k).Some?;
      }
    }
  }

  /** No test of the batch shares a key with one that is out elsewhere. */
  predicate Apart(cfg: Config, running: map<Worker, seq<Test>>, batch: seq<Test>) {
    forall b, w, c | b in batch && w in running && c in running[w] :: !Shares(cfg, b, c) && !RunsAlone(cfg, b)
  }

  lemma BatchIsApart(cfg: Config, tests: multiset<Test>, running: map<Worker, seq<Test>>, after: System, i: Worker,
                     batch: seq<Test>)
    requires Inv(cfg, tests, after) && i !in running
    requires after.running == if batch == [] then running else running[i := batch]
    ensures Apart(cfg, running, batch)
  {
    forall b, w, c | b in batch && w in running && c in running[w] ensures !Shares(cfg, b, c) && !RunsAlone(cfg, b) {
      NoOverlap(cfg, tests, after, i, w, b, c);
    }
  }

  /** While t waits for q, a batch without t and u brings no key of t. */
  lemma KeyStays(cfg: Config, s: State, running: map<Worker, seq<Test>>, r: State, batch: seq<Test>, t: Test, u: Test,
                 q: Key)
    requires Aligned(cfg, t, u) && Owned(cfg, s, running) && Coherent(cfg, s, running) && OnlyOthers(cfg, running, t, u)
    requires First(Keys(cfg, t), s.active.Keys) == Some(q) && Apart(cfg, running, batch) && t !in batch && u !in batch
    requires r.active.Keys == s.active.Keys + KeysOf(cfg, batch)
    ensures First(Keys(cfg, t), r.active.Keys) == Some(q)
  {
    var w, c := Owner(cfg, s, running, t, u, q);
    forall b, k | b in batch && k in Keys(cfg, b) ensures k !in Keys(cfg, t) {
      assert !Shares(cfg, b, c) && !RunsAlone(cfg, b);
      BatchApart(cfg, s, running, t, u, q, b, k);
    }
    FirstAgrees(Keys(cfg, t), s.active.Keys, r.active.Keys);
  }

  lemma StepLined(cfg: Config, s: State, running: map<Worker, seq<Test>>, r: State, batch: seq<Test>, t: Test, u: Test,
                  given: seq<Test>, k: Key)
    requires Aligned(cfg, t, u) && Owned(cfg, s, running) && Coherent(cfg, s, running) && OnlyOthers(cfg, running, t, u)
    requires Apart(cfg, running, batch) && r.active.Keys == s.active.Keys + KeysOf(cfg, batch)
    requires var at := First(Keys(cfg, t), s.active.Keys);
             at == Some(k) || (at == None && Of(Queue(r.waiting, k), {t, u}) == [])
    requires OneQueue(r, {t, u}, k) && Of(batch, {t, u}) == [] && Line(r, {t, u}, k) == Of(given, {t, u})
    ensures Lined(cfg, r, t, u, given, k)
  {
    if First(Keys(cfg, t), s.active.Keys) != None {
      OfEmpty(batch, {t, u});
      KeyStays(cfg, s, running, r, batch, t, u, k);
    }
  }

  lemma DispatchLined(cfg: Config, i: Worker, s: State, running: map<Worker, seq<Test>>, r: State, batch: seq<Test>,
                      t: Test, u: Test, given: seq<Test>, k: Key)
    requires Aligned(cfg, t, u) && Owned(cfg, s, running) && Coherent(cfg, s, running) && OnlyOthers(cfg, running, t, u)
    requires Lined(cfg, s, t, u, given, k) && Level(cfg, s, {t, u}, k, First(Keys(cfg, t), s.active.Keys))
    requires (forall v | v in s.sequential :: RunsAlone(cfg, v)) && !RunsAlone(cfg, t) && !RunsAlone(cfg, u)
    requires i in s.alive && (r, batch) == Schedule(cfg, i, s) && Apart(cfg, running, batch)
    ensures if Of(batch, {t, u}) == [] then Lined(cfg, r, t, u, given, k)
            else Of(given, {t, u}) != [] && Of(batch, {t, u})[0] == Of(given, {t, u})[0]
  {
    ScheduleKeepsLine(cfg, {t, u}, k, First(Keys(cfg, t), s.active.Keys), i, s, r, batch);
    ScheduleActive(cfg, i, s, r, batch);
    if Of(batch, {t, u}) == [] { StepLined(cfg, s, running, r, batch, t, u, given, k); }
  }

  lemma StepInLine(cfg: Config, tests: multiset<Test>, sys: System, e: Event, t: Test, u: Test, given: seq<Test>,
                   after: System)
    requires PairInv(cfg, tests, sys, t, u, given) && Enabled(sys, e) && Of(sys.log, {t, u}) == []
    requires Aligned(cfg, t, u) && !RunsAlone(cfg, t) && !RunsAlone(cfg, u)
    requires e.i in sys.master.alive && after == Step(cfg, sys, e) && Inv(cfg, tests, after)
    ensures InLine(cfg, after, t, u, given)
  {
    var s, running := Before(sys, e), sys.running - {e.i};
    var k := BeforeLevel(cfg, tests, sys, e, t, u, given);
    var batch := Schedule(cfg, e.i, s).1;
    StepParts(cfg, sys, e, after, s, batch, {t, u});
    BatchIsApart(cfg, tests, running, after, e.i, batch);
    DispatchLined(cfg, e.i, s, running, after.master, batch, t, u, given, k);
  }

  /** The state before a batch is taken. */
  lemma BeforeLevel(cfg: Config, tests: multiset<Test>, sys: System, e: Event, t: Test, u: Test, given: seq<Test>)
    returns (k: Key)
    requires PairInv(cfg, tests, sys, t, u, given) && Enabled(sys, e) && Of(sys.log, {t, u}) == [] && Aligned(cfg, t, u)
    ensures var s, running := Before(sys, e), sys.running - {e.i};
            && Owned(cfg, s, running) && Coherent(cfg, s, running) && OnlyOthers(cfg, running, t, u)
            && Lined(cfg, s, t, u, given, k) && Level(cfg, s, {t, u}, k, First(Keys(cfg, t), s.active.Keys))
            && e.i in s.alive && forall v | v in s.sequential :: RunsAlone(cfg, v)
  {
    BeforeFits(cfg, tests, sys, e);
    BeforeOwned(cfg, tests, sys, e);
    OnlyOthersOut(cfg, tests, sys, e, t, u);
    var q :| Lined(cfg, sys.master, t, u, given, q);
    BeforeLined(cfg, tests, sys, e, t, u, given, q);
    k := LevelPair(cfg, Before(sys, e), sys.running - {e.i}, t, u, given, q);
  }

  lemma StepParts(cfg: Config, sys: System, e: Event, after: System, s: State, batch: seq<Test>, p: set<Test>)
    requires e.i in sys.master.alive && after == Step(cfg, sys, e) && s == Before(sys, e)
    requires Staffed(sys) && Enabled(sys, e) && Of(sys.log, p) == [] && batch == Schedule(cfg, e.i, s).1
    ensures (after.master, batch) == Schedule(cfg, e.i, s) && Of(after.log, p) == Of(batch, p)
    ensures after.running == if batch == [] then sys.running - {e.i} else (sys.running - {e.i})[e.i := batch]
  {
    OfConcat(sys.log, batch, p);
    if e.Ready? { assert sys.running - {e.i} == sys.running; }
  }

  lemma StepKeepsPair(cfg: Config, tests: multiset<Test>, sys: System, e: Event, t: Test, u: Test, given: seq<Test>)
    requires PairInv(cfg, tests, sys, t, u, given) && Enabled(sys, e)
    requires Aligned(cfg, t, u) && !RunsAlone(cfg, t) && !RunsAlone(cfg, u)
    ensures e.i in sys.master.alive && PairInv(cfg, tests, Step(cfg, sys, e), t, u, given)
  {
    var after := Step(cfg, sys, e);
    StepKeeps(cfg, tests, sys, e);
    StepKeepsOwned(cfg, tests, sys, e);
    StepKeepsLogged(cfg, sys, e);
    if Of(sys.log, {t, u}) == [] {
      StepInLine(cfg, tests, sys, e, t, u, given, after);
    } else {
      FirstStays(sys.log, Handle(cfg, e.TestsFinished?, e.i, sys.master).1, {t, u});
    }
  }

  lemma {:induction false} RunKeepsPair(cfg: Config, tests: multiset<Test>, sys: System, events: seq<Event>, t: Test,
                                        u: Test, given: seq<Test>)
    requires PairInv(cfg, tests, sys, t, u, given) && IsRun(cfg, sys, events)
    requires Aligned(cfg, t, u) && !RunsAlone(cfg, t) && !RunsAlone(cfg, u)
    ensures PairInv(cfg, tests, Outcome(cfg, sys, events), t, u, given)
    decreases |events|
  {
    if events != [] {
      StepKeepsPair(cfg, tests, sys, events[0], t, u, given);
      RunKeepsPair(cfg, tests, Step(cfg, sys, events[0]), events[1..], t, u, given);
    }
  }

  // ----- from the first test of the log to the whole order

  lemma DistinctOnce(s: seq<Test>)
    requires forall t :: multiset(s)[t] <= 1
    ensures Distinct(s)
  {
    forall i, j | 0 <= i < j < |s| ensures s[i] != s[j] {
      assert s == s[..j] + s[j..];
      assert multiset(s) == multiset(s[..j]) + multiset(s[j..]);
      assert s[..j][i] == s[i] && s[j..][0] == s[j];
      assert multiset(s[..j])[s[i]] >= 1 && multiset(s[j..])[s[j]] >= 1;
      assert multiset(s)[s[i]] <= 1;
    }
  }

  lemma {:induction false} OnceDistinct(s: seq<Test>, t: Test)
    requires Distinct(s)
    ensures multiset(s)[t] <= 1
  {
    if s != [] {
      OnceDistinct(s[1..], t);
      assert s == [s[0]] + s[1..];
      assert s[0] !in s[1..];
    }
  }

  lemma {:induction false} DistinctFits(s: seq<Test>, p: set<Test>)
    requires Distinct(s) && forall x | x in s :: x in p
    ensures |s| <= |p|
  {
    if s != [] {
      forall x | x in s[1..] ensures x in p - {s[0]} {
        var i :| 1 <= i < |s| && s[i] == x;
      }
      DistinctFits(s[1..], p - {s[0]});
    }
  }

  lemma PairPrefix(log: seq<Test>, given: seq<Test>, t: Test, u: Test)
    requires Distinct(log) && Distinct(given)
    requires forall x | x in log :: x in given
    requires forall x | x in given :: x == t || x == u
    requires log != [] ==> given != [] && log[0] == given[0]
    ensures log <= given
  {
    forall i | 0 <= i < |log| ensures log[i] == t || log[i] == u { assert log[i] in log; }
    DistinctFits(log, {t, u});
    if |log| >= 2 {
      assert log[0] != log[1] && log[1] in given;
      assert |given| > 1 && given[1] in given && given[0] != given[1];
    }
  }

  /** A part of the list given, as far as t and u go, that begins as the list does. */
  lemma CountPrefix(log: seq<Test>, given: seq<Test>, t: Test, u: Test)
    requires Distinct(given) && forall x | x in {t, u} :: multiset(log)[x] <= multiset(given)[x]
    requires Of(log, {t, u}) != [] ==> Of(given, {t, u}) != [] && Of(log, {t, u})[0] == Of(given, {t, u})[0]
    ensures Of(log, {t, u}) <= Of(given, {t, u})
  {
    var l, g := Of(log, {t, u}), Of(given, {t, u});
    OfCounts(log, {t, u});
    OfCounts(given, {t, u});
    forall x ensures multiset(l)[x] <= multiset(g)[x] <= 1 && (x in g ==> x == t || x == u) {
      OnceDistinct(given, x);
      assert x in g <==> x in multiset(g);
    }
    DistinctOnce(l);
    DistinctOnce(g);
    forall x | x in l ensures x in g { assert x in multiset(l) && x in multiset(g); }
    PairPrefix(l, g, t, u);
  }

  lemma LogPrefix(cfg: Config, tests: multiset<Test>, sys: System, t: Test, u: Test, given: seq<Test>)
    requires Tests(sys) == tests && Logged(sys) && InLine(cfg, sys, t, u, given) && Distinct(given)
    requires tests[t] == multiset(given)[t] && tests[u] == multiset(given)[u]
    ensures Of(sys.log, {t, u}) <= Of(given, {t, u})
  {
    forall x | x in {t, u} ensures multiset(sys.log)[x] <= multiset(given)[x] {
      assert tests[x] == Pending(sys.master)[x] + multiset(sys.log)[x];
    }
    CountPrefix(sys.log, given, t, u);
  }

  lemma StartsInLine(cfg: Config, given: seq<Test>, sequential: seq<Test>, n: nat, t: Test, u: Test)
    requires Begins(cfg, given, sequential, n)
    ensures PairInv(cfg, multiset(given) + multiset(sequential), Start(Reverse(given), sequential, Workers(n)),
                    t, u, given)
  {
    var start := Start(Reverse(given), sequential, Workers(n));
    ReverseMembers(given);
    ReversePermutes(given);
    ReverseTwice(given);
    assert 1 in Workers(n);
    StartFits(cfg, Reverse(given), sequential, Workers(n));
    assert Lined(cfg, start.master, t, u, given, "");
  }

  /** The first direction, for one run: with aligned keys the order given is kept. */
  lemma AlignedKeeps(cfg: Config, t: Test, u: Test, given: seq<Test>, sequential: seq<Test>, n: nat, events: seq<Event>)
    requires Aligned(cfg, t, u) && !RunsAlone(cfg, t) && !RunsAlone(cfg, u)
    ensures KeptIn(cfg, t, u, given, sequential, n, events)
  {
    var start, tests := Start(Reverse(given), sequential, Workers(n)), multiset(given) + multiset(sequential);
    if Begins(cfg, given, sequential, n) && IsRun(cfg, start, events) {
      StartsInLine(cfg, given, sequential, n, t, u);
      RunKeepsPair(cfg, tests, start, events, t, u, given);
      LogPrefix(cfg, tests, Outcome(cfg, start, events), t, u, given);
    }
  }
}
