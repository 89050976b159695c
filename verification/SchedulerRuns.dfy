/**
 * Runs of the master of ci/run-tests-parallel.php against workers that answer:
 * nothing is lost, conflicting tests never overlap, and every run ends with all tests done.
 */
module SchedulerRuns {
  import opened Wrappers
  import opened Scheduler

  /**
   * The master together with its workers: `starting` ones have still to say "ready", `running`
   * ones owe a "tests_finished" for their batch.  `log` lists the tests in dispatch order.
   */
  datatype System = System(master: State, starting: set<Worker>, running: map<Worker, seq<Test>>,
                           done: multiset<Test>, log: seq<Test>)

  datatype Event = Ready(i: Worker) | TestsFinished(i: Worker)

  predicate Enabled(sys: System, e: Event) {
    if e.Ready? then e.i in sys.starting else e.i in sys.running
  }

  function Answered(sys: System, e: Event): System {
    if e.Ready? then sys.(starting := sys.starting - {e.i})
    else if e.i in sys.running then
      sys.(running := sys.running - {e.i}, done := sys.done + multiset(sys.running[e.i]))
    else sys
  }

  function Step(cfg: Config, sys: System, e: Event): System
    requires e.i in sys.master.alive
  {
    var (master, batch) := Handle(cfg, e.TestsFinished?, e.i, sys.master);
    Dispatched(Answered(sys, e), e.i, master, batch)
  }

  function Dispatched(sys: System, i: Worker, master: State, batch: seq<Test>): System {
    sys.(master := master, log := sys.log + batch,
         running := if batch == [] then sys.running else sys.running[i := batch])
  }

  /** All the tests of a family of queues. */
  ghost function Pooled<K>(m: map<K, seq<Test>>): multiset<Test>
    decreases |m|
  {
    if m == map[] then multiset{}
    else
      var k :| k in m;
      multiset(m[k]) + Pooled(m - {k})
  }

  // ----- the invariant

  /** The tests the master holds without their being marked sequential. */
  ghost function Held(s: State): multiset<Test> {
    multiset(s.files) + Pooled(s.waiting)
  }

  /** The tests the master holds. */
  ghost function Pending(s: State): multiset<Test> {
    Held(s) + multiset(s.sequential)
  }

  /** Every test is in exactly one place. */
  ghost function Tests(sys: System): multiset<Test> {
    Pending(sys.master) + Pooled(sys.running) + sys.done
  }

  predicate WaitsFor(cfg: Config, s: State, k: Key) {
    k in s.waiting ==>
      && k in s.active && s.waiting[k] != []
      && forall t | t in s.waiting[k] :: k in Keys(cfg, t) && !RunsAlone(cfg, t)
  }

  predicate Claims(cfg: Config, s: State, w: Worker, batch: seq<Test>) {
    forall t, k | t in batch && k in Keys(cfg, t) :: k in s.active && s.active[k] == w
  }

  /** Active keys belong to busy workers, and only active keys have a queue. */
  predicate KeyFits(cfg: Config, s: State, running: map<Worker, seq<Test>>, k: Key) {
    && (k in s.active <==> k in s.order)
    && (k in s.active ==> s.active[k] in running)
    && WaitsFor(cfg, s, k)
  }

  predicate BatchFits(cfg: Config, s: State, running: map<Worker, seq<Test>>, w: Worker) {
    w in running ==> running[w] != [] && Claims(cfg, s, w, running[w])
  }

  /** What the master's tables say about the batches that are out. */
  ghost predicate Coherent(cfg: Config, s: State, running: map<Worker, seq<Test>>) {
    && (forall k :: KeyFits(cfg, s, running, k))
    && (forall w :: BatchFits(cfg, s, running, w))
    && s.inProgress == |running|
  }

  predicate AloneAt(cfg: Config, s: State, running: map<Worker, seq<Test>>, w: Worker, t: Test) {
    && (t in s.sequential ==> RunsAlone(cfg, t))
    && (t in s.files && RunsAlone(cfg, t) ==> |s.alive| <= 1)
    && (w in running && t in running[w] && RunsAlone(cfg, t) ==> s.alive == {w})
  }

  /** Tests marked "all" are pending only while a single worker is left, and run only on that worker. */
  ghost predicate Alone(cfg: Config, s: State, running: map<Worker, seq<Test>>) {
    forall w, t :: AloneAt(cfg, s, running, w, t)
  }

  /** Every worker alive owes a message, and the last one leaves only when nothing is pending. */
  ghost predicate Staffed(sys: System) {
    && sys.master.alive == sys.starting + sys.running.Keys
    && sys.starting !! sys.running.Keys
    && (sys.master.alive == {} ==> sys.master.files == [] && sys.master.sequential == [])
  }

  ghost predicate Inv(cfg: Config, tests: multiset<Test>, sys: System) {
    && Tests(sys) == tests
    && Coherent(cfg, sys.master, sys.running)
    && Alone(cfg, sys.master, sys.running)
    && Staffed(sys)
  }

  // ----- queues as multisets

  lemma {:induction false} PooledWithout<K>(m: map<K, seq<Test>>, k: K)
    requires k in m
    ensures Pooled(m) == multiset(m[k]) + Pooled(m - {k})
    decreases |m|
  {
    var j :| j in m && Pooled(m) == multiset(m[j]) + Pooled(m - {j});
    if j != k {
      PooledWithout(m - {j}, k);
      PooledWithout(m - {k}, j);
      assert m - {j} - {k} == m - {k} - {j};
    }
  }

  lemma PooledPut<K>(m: map<K, seq<Test>>, k: K, q: seq<Test>)
    ensures Pooled(m[k := q]) == multiset(q) + Pooled(m - {k})
  {
    PooledWithout(m[k := q], k);
    assert m[k := q] - {k} == m - {k};
  }

  lemma PooledQueue(m: map<Key, seq<Test>>, k: Key)
    ensures Pooled(m) == multiset(Queue(m, k)) + Pooled(m - {k})
  {
    if k in m {
      PooledWithout(m, k);
    } else {
      assert m - {k} == m;
    }
  }

  lemma {:induction false} PooledMember<K>(m: map<K, seq<Test>>, t: Test) returns (k: K)
    requires t in Pooled(m)
    ensures k in m && t in m[k]
    decreases |m|
  {
    k :| k in m && Pooled(m) == multiset(m[k]) + Pooled(m - {k});
    if t !in m[k] {
      k := PooledMember(m - {k}, t);
    }
  }

  lemma {:induction false} ReversePermutes(s: seq<Test>)
    ensures multiset(Reverse(s)) == multiset(s)
  {
    if s != [] {
      ReversePermutes(s[1..]);
      assert s == [s[0]] + s[1..];
    }
  }

  // ----- giving back keys

  /** r is s with the keys of `gone` given back and their queues made pending again. */
  ghost predicate GivenBack(s: State, r: State, gone: set<Key>) {
    && r.active == s.active - gone
    && r.waiting == s.waiting - gone
    && (forall k :: k in r.order <==> k in s.order && k !in gone)
    && r.sequential == s.sequential && r.inProgress == s.inProgress && r.alive == s.alive
    && Held(r) == Held(s)
  }

  function OfWorker(keys: seq<Key>, i: Worker, held: map<Key, Worker>): set<Key> {
    set k | k in keys && k in held && held[k] == i
  }

  lemma ReleaseKeyGivesBack(k: Key, i: Worker, held: map<Key, Worker>, s: State)
    ensures GivenBack(s, ReleaseKey(k, i, held, s), OfWorker([k], i, held))
  {
    if k in held && held[k] == i {
      assert OfWorker([k], i, held) == {k};
      PooledQueue(s.waiting, k);
      ReversePermutes(Queue(s.waiting, k));
    } else {
      assert OfWorker([k], i, held) == {};
      assert s.active - {} == s.active && s.waiting - {} == s.waiting;
    }
  }

  lemma {:induction false} ReleaseGivesBack(keys: seq<Key>, i: Worker, held: map<Key, Worker>, s: State)
    ensures GivenBack(s, Release(keys, i, held, s), OfWorker(keys, i, held))
    decreases |keys|
  {
    if keys == [] {
      assert OfWorker(keys, i, held) == {};
      assert s.active - {} == s.active && s.waiting - {} == s.waiting;
    } else {
      var mid := ReleaseKey(keys[0], i, held, s);
      var first, rest := OfWorker([keys[0]], i, held), OfWorker(keys[1..], i, held);
      ReleaseKeyGivesBack(keys[0], i, held, s);
      ReleaseGivesBack(keys[1..], i, held, mid);
      GivenBackTwice(s, mid, Release(keys[1..], i, held, mid), first, rest);
      assert first + rest == OfWorker(keys, i, held) by {
        assert keys == [keys[0]] + keys[1..];
      }
    }
  }

  lemma GivenBackTwice(s: State, mid: State, r: State, first: set<Key>, rest: set<Key>)
    requires GivenBack(s, mid, first) && GivenBack(mid, r, rest)
    ensures GivenBack(s, r, first + rest)
  {
    assert s.active - first - rest == s.active - (first + rest);
    assert s.waiting - first - rest == s.waiting - (first + rest);
  }

  // ----- taking a batch

  /** What taking a batch, `batch` being taken already, leaves of s and adds to the batch. */
  ghost predicate Taken(cfg: Config, size: nat, s: State, batch: seq<Test>, r: State, files: seq<Test>) {
    && r == s.(files := r.files, waiting := r.waiting)
    && batch <= files
    && Held(r) + multiset(files) == Held(s) + multiset(batch)
    && (forall k :: WaitsFor(cfg, r, k))
    && (forall t | t in files[|batch|..] :: t in s.files && FirstActive(Keys(cfg, t), s.active).None?)
    && (forall t | t in r.files :: t in s.files)
    && (|files| <= size ==> r.files == [])
  }

  /** Only tests that may run beside others are put off. */
  predicate Unmixed(cfg: Config, s: State) {
    s.active == map[] || forall t | t in s.files :: !RunsAlone(cfg, t)
  }

  lemma {:induction false} TakeIsTaken(cfg: Config, size: nat, s: State, batch: seq<Test>)
    requires Unmixed(cfg, s) && forall k :: WaitsFor(cfg, s, k)
    ensures var (r, files) := Take(cfg, size, s, batch); Taken(cfg, size, s, batch, r, files)
    decreases |s.files|
  {
    if |batch| <= size && s.files != [] {
      var file := s.files[|s.files| - 1];
      var rest := s.(files := s.files[..|s.files| - 1]);
      assert s.files == rest.files + [file];
      match FirstActive(Keys(cfg, file), s.active)
      case Some(k) =>
        var next := rest.(waiting := s.waiting[k := Queue(s.waiting, k) + [file]]);
        PutOffWaits(cfg, s, file, k, next);
        TakeIsTaken(cfg, size, next, batch);
      case None =>
        WaitsSame(cfg, s, rest);
        TakeIsTaken(cfg, size, rest, batch + [file]);
        var (r, files) := Take(cfg, size, rest, batch + [file]);
        TakenOne(cfg, size, s, batch, file, rest, r, files);
    }
  }

  lemma WaitsSame(cfg: Config, s: State, r: State)
    requires forall k :: WaitsFor(cfg, s, k)
    requires r.active == s.active && r.waiting == s.waiting
    ensures forall k :: WaitsFor(cfg, r, k)
  {
    forall k ensures WaitsFor(cfg, r, k) { assert WaitsFor(cfg, s, k); }
  }

  lemma PutOffWaits(cfg: Config, s: State, file: Test, k: Key, next: State)
    requires forall j :: WaitsFor(cfg, s, j)
    requires k in s.active && k in Keys(cfg, file) && !RunsAlone(cfg, file)
    requires next.active == s.active && next.waiting == s.waiting[k := Queue(s.waiting, k) + [file]]
    ensures forall j :: WaitsFor(cfg, next, j)
    ensures Pooled(next.waiting) == Pooled(s.waiting) + multiset{file}
  {
    forall j ensures WaitsFor(cfg, next, j) { assert WaitsFor(cfg, s, j); }
    PooledQueue(s.waiting, k);
    PooledPut(s.waiting, k, Queue(s.waiting, k) + [file]);
  }

  lemma TakenOne(cfg: Config, size: nat, s: State, batch: seq<Test>, file: Test, rest: State, r: State,
                 files: seq<Test>)
    requires |batch| <= size && s.files == rest.files + [file] && rest == s.(files := rest.files)
    requires FirstActive(Keys(cfg, file), s.active).None?
    requires Taken(cfg, size, rest, batch + [file], r, files)
    ensures Taken(cfg, size, s, batch, r, files)
  {
    assert batch <= batch + [file] <= files;
    assert files[|batch|..] == [file] + files[|batch + [file]|..];
    assert Held(r) + multiset(files) == Held(s) + multiset(batch) by {
      assert Held(rest) + multiset(batch + [file]) == (Held(rest) + multiset{file}) + multiset(batch);
      assert Held(s) == Held(rest) + multiset{file};
    }
  }

  // ----- claiming keys

  /** r is s with the keys of `gained` claimed by i. */
  ghost predicate Claimed(s: State, r: State, gained: set<Key>, i: Worker) {
    && r == s.(active := r.active, order := r.order)
    && forall k :: ClaimedAt(s, r, gained, i, k)
  }

  predicate ClaimedAt(s: State, r: State, gained: set<Key>, i: Worker, k: Key) {
    && Find(r.active, k) == (if k in gained then Some(i) else Find(s.active, k))
    && (k in r.order <==> k in s.order || (k in gained && k !in s.active))
  }

  function KeySet(keys: seq<Key>): set<Key> {
    set k | k in keys
  }

  function KeysOf(cfg: Config, batch: seq<Test>): set<Key> {
    set t, k | t in batch && k in Keys(cfg, t) :: k
  }

  lemma ClaimedTwice(s: State, mid: State, r: State, first: set<Key>, rest: set<Key>, i: Worker)
    requires Claimed(s, mid, first, i) && Claimed(mid, r, rest, i)
    ensures Claimed(s, r, first + rest, i)
  {
    forall k ensures ClaimedAt(s, r, first + rest, i, k) {
      assert ClaimedAt(s, mid, first, i, k) && ClaimedAt(mid, r, rest, i, k);
      assert (k in mid.active) == Find(mid.active, k).Some?;
      assert (k in s.active) == Find(s.active, k).Some?;
    }
  }

  lemma ClaimOneClaims(k: Key, i: Worker, s: State)
    ensures Claimed(s, ClaimKey(k, i, s), {k}, i)
  {
    forall j ensures ClaimedAt(s, ClaimKey(k, i, s), {k}, i, j) {}
  }

  lemma {:induction false} ClaimKeysClaims(keys: seq<Key>, i: Worker, s: State)
    ensures Claimed(s, ClaimKeys(keys, i, s), KeySet(keys), i)
    decreases |keys|
  {
    if keys == [] {
      forall k ensures ClaimedAt(s, s, KeySet(keys), i, k) {}
    } else {
      var next := ClaimKey(keys[0], i, s);
      ClaimOneClaims(keys[0], i, s);
      ClaimKeysClaims(keys[1..], i, next);
      ClaimedTwice(s, next, ClaimKeys(keys[1..], i, next), {keys[0]}, KeySet(keys[1..]), i);
      assert {keys[0]} + KeySet(keys[1..]) == KeySet(keys) by {
        assert keys == [keys[0]] + keys[1..];
      }
    }
  }

  lemma {:induction false} ClaimClaims(cfg: Config, batch: seq<Test>, i: Worker, s: State)
    ensures Claimed(s, Claim(cfg, batch, i, s), KeysOf(cfg, batch), i)
    decreases |batch|
  {
    if batch == [] {
      forall k ensures ClaimedAt(s, s, KeysOf(cfg, batch), i, k) {}
    } else {
      var keys := Keys(cfg, batch[0]);
      var next := ClaimKeys(keys, i, s);
      ClaimKeysClaims(keys, i, s);
      ClaimClaims(cfg, batch[1..], i, next);
      ClaimedTwice(s, next, Claim(cfg, batch[1..], i, next), KeySet(keys), KeysOf(cfg, batch[1..]), i);
      assert KeySet(keys) + KeysOf(cfg, batch[1..]) == KeysOf(cfg, batch) by {
        assert batch == [batch[0]] + batch[1..];
      }
    }
  }

  // ----- one message keeps the invariant

  lemma FinishKeeps(cfg: Config, s: State, running: map<Worker, seq<Test>>, i: Worker)
    requires Coherent(cfg, s, running) && Alone(cfg, s, running) && i in running
    ensures Coherent(cfg, Finish(i, s), running - {i})
    ensures Alone(cfg, Finish(i, s), running - {i})
    ensures Held(Finish(i, s)) == Held(s) && Finish(i, s).sequential == s.sequential
  {
    var was := s.(inProgress := s.inProgress - 1);
    ReleaseGivesBack(s.order, i, s.active, was);
    FinishCoherent(cfg, s, running, i, Finish(i, s));
    FinishPending(cfg, s, running, Finish(i, s));
    AlonePart(cfg, s, running, Finish(i, s), running - {i});
  }

  lemma AlonePart(cfg: Config, s: State, running: map<Worker, seq<Test>>, r: State, part: map<Worker, seq<Test>>)
    requires Alone(cfg, s, running) && r.alive == s.alive && r.sequential == s.sequential
    requires |s.alive| > 1 ==> forall t | t in r.files :: !RunsAlone(cfg, t)
    requires forall w | w in part :: w in running && part[w] == running[w]
    ensures Alone(cfg, r, part)
  {
    forall w, t ensures AloneAt(cfg, r, part, w, t) { assert AloneAt(cfg, s, running, w, t); }
  }

  lemma AloneFiles(cfg: Config, s: State, running: map<Worker, seq<Test>>)
    requires Alone(cfg, s, running)
    ensures |s.alive| > 1 ==> forall t | t in s.files :: !RunsAlone(cfg, t)
  {
    forall t | t in s.files && RunsAlone(cfg, t) ensures |s.alive| <= 1 { assert AloneAt(cfg, s, running, 0, t); }
  }

  lemma FinishCoherent(cfg: Config, s: State, running: map<Worker, seq<Test>>, i: Worker, r: State)
    requires Coherent(cfg, s, running) && i in running
    requires GivenBack(s.(inProgress := s.inProgress - 1), r, OfWorker(s.order, i, s.active))
    ensures Coherent(cfg, r, running - {i})
  {
    var gone := OfWorker(s.order, i, s.active);
    forall k ensures KeyFits(cfg, r, running - {i}, k) {
      assert KeyFits(cfg, s, running, k);
      assert k in gone <==> k in s.active && s.active[k] == i;
    }
    forall w ensures BatchFits(cfg, r, running - {i}, w) {
      assert BatchFits(cfg, s, running, w);
      if w in running && w != i {
        forall t, k | t in running[w] && k in Keys(cfg, t) ensures k in r.active && r.active[k] == w {
          assert KeyFits(cfg, s, running, k);
        }
      }
    }
    assert (running - {i}).Keys == running.Keys - {i};
  }

  lemma FinishPending(cfg: Config, s: State, running: map<Worker, seq<Test>>, r: State)
    requires Coherent(cfg, s, running) && Alone(cfg, s, running)
    requires Held(r) == Held(s)
    ensures |s.alive| > 1 ==> forall t | t in r.files :: !RunsAlone(cfg, t)
  {
    AloneFiles(cfg, s, running);
    if |s.alive| > 1 {
      forall t | t in r.files ensures !RunsAlone(cfg, t) {
        assert t in Held(r);
        if t !in s.files {
          var k := PooledMember(s.waiting, t);
          assert KeyFits(cfg, s, running, k);
        }
      }
    }
  }

  lemma OnlyMember(alive: set<Worker>, i: Worker)
    requires i in alive
    ensures |alive| >= 1 && (|alive| == 1 <==> alive == {i})
  {
    assert |alive - {i}| == |alive| - 1;
    if |alive| == 1 { assert alive - {i} == {}; }
  }

  /** The tables only matter up to what is pending. */
  lemma CoherentSame(cfg: Config, s: State, r: State, running: map<Worker, seq<Test>>)
    requires Coherent(cfg, s, running)
    requires r.active == s.active && r.order == s.order && r.inProgress == s.inProgress
    requires forall k :: WaitsFor(cfg, r, k)
    ensures Coherent(cfg, r, running)
  {
    forall k ensures KeyFits(cfg, r, running, k) { assert KeyFits(cfg, s, running, k) && WaitsFor(cfg, r, k); }
    forall w ensures BatchFits(cfg, r, running, w) { assert BatchFits(cfg, s, running, w); }
  }

  lemma QueuesFit(cfg: Config, s: State, running: map<Worker, seq<Test>>)
    requires Coherent(cfg, s, running)
    ensures forall k :: WaitsFor(cfg, s, k)
  {
    forall k ensures WaitsFor(cfg, s, k) { assert KeyFits(cfg, s, running, k); }
  }

  lemma AdmitKeeps(cfg: Config, s: State, running: map<Worker, seq<Test>>, i: Worker)
    requires Coherent(cfg, s, running) && Alone(cfg, s, running)
    requires i in s.alive && i !in running && running.Keys <= s.alive
    ensures Coherent(cfg, Admit(s), running) && Alone(cfg, Admit(s), running) && Unmixed(cfg, Admit(s))
    ensures Pending(Admit(s)) == Pending(s)
  {
    QueuesFit(cfg, s, running);
    WaitsSame(cfg, s, Admit(s));
    CoherentSame(cfg, s, Admit(s), running);
    OnlyMember(s.alive, i);
    AloneFiles(cfg, s, running);
    forall w, t ensures AloneAt(cfg, Admit(s), running, w, t) { assert AloneAt(cfg, s, running, w, t); }
    if |s.alive| == 1 {
      forall k ensures k !in s.active { assert KeyFits(cfg, s, running, k); }
    }
  }

  /** What handling a message of a worker that is idle leaves behind. */
  ghost predicate Scheduled(cfg: Config, s: State, running: map<Worker, seq<Test>>, i: Worker, r: State,
                            batch: seq<Test>) {
    && Coherent(cfg, r, if batch == [] then running else running[i := batch])
    && Alone(cfg, r, if batch == [] then running else running[i := batch])
    && Pending(r) + multiset(batch) == Pending(s)
    && r.alive == (if batch == [] then s.alive - {i} else s.alive)
    && (batch == [] ==> r.files == [])
    && (batch == [] && r.alive == {} ==> r.sequential == [])
  }

  lemma ScheduleKeeps(cfg: Config, s: State, running: map<Worker, seq<Test>>, i: Worker, r: State, batch: seq<Test>)
    requires Coherent(cfg, s, running) && Alone(cfg, s, running)
    requires i in s.alive && i !in running && running.Keys <= s.alive
    requires (r, batch) == Schedule(cfg, i, s)
    ensures Scheduled(cfg, s, running, i, r, batch)
  {
    var size, admitted := BatchSize(cfg, |s.alive|), Admit(s);
    var (taken, files) := Take(cfg, size, admitted, []);
    assert files == batch && r == After(cfg, i, taken, batch);
    AdmitTake(cfg, size, s, running, i, taken, batch);
    AfterTake(cfg, size, admitted, running, i, taken, batch);
    ScheduledFrom(cfg, s, admitted, running, i, r, batch);
  }

  lemma ScheduledFrom(cfg: Config, s: State, admitted: State, running: map<Worker, seq<Test>>, i: Worker, r: State,
                      batch: seq<Test>)
    requires Scheduled(cfg, admitted, running, i, r, batch)
    requires Pending(admitted) == Pending(s) && admitted.alive == s.alive
    ensures Scheduled(cfg, s, running, i, r, batch)
  {
  }

  lemma AdmitTake(cfg: Config, size: nat, s: State, running: map<Worker, seq<Test>>, i: Worker, r: State,
                  batch: seq<Test>)
    requires Coherent(cfg, s, running) && Alone(cfg, s, running)
    requires i in s.alive && i !in running && running.Keys <= s.alive
    requires (r, batch) == Take(cfg, size, Admit(s), [])
    ensures Pending(Admit(s)) == Pending(s) && (|s.alive| == 1 ==> Admit(s).sequential == [])
    ensures Taken(cfg, size, Admit(s), [], r, batch)
    ensures Coherent(cfg, r, running) && Alone(cfg, r, running)
    ensures |s.alive| > 1 ==> forall t | t in batch :: !RunsAlone(cfg, t)
  {
    AdmitKeeps(cfg, s, running, i);
    QueuesFit(cfg, Admit(s), running);
    TakeIsTaken(cfg, size, Admit(s), []);
    TakenKeeps(cfg, size, Admit(s), running, r, batch);
  }

  function After(cfg: Config, i: Worker, taken: State, batch: seq<Test>): State {
    if batch != [] then Claim(cfg, batch, i, taken).(inProgress := taken.inProgress + 1)
    else taken.(alive := taken.alive - {i})
  }

  lemma AfterTake(cfg: Config, size: nat, s: State, running: map<Worker, seq<Test>>, i: Worker, taken: State,
                  batch: seq<Test>)
    requires Coherent(cfg, taken, running) && Alone(cfg, taken, running)
    requires Taken(cfg, size, s, [], taken, batch)
    requires i in s.alive && i !in running && running.Keys <= s.alive
    requires |s.alive| == 1 ==> s.sequential == []
    requires |s.alive| > 1 ==> forall t | t in batch :: !RunsAlone(cfg, t)
    ensures Scheduled(cfg, s, running, i, After(cfg, i, taken, batch), batch)
  {
    AfterHeld(cfg, i, taken, batch);
    TakenPending(cfg, size, s, taken, batch);
    assert batch[0..] == batch;
    if batch == [] {
      LetGoKeeps(cfg, taken, running, i);
      OnlyMember(s.alive, i);
    } else {
      DispatchKeeps(cfg, taken, running, i, batch);
    }
  }

  lemma TakenPending(cfg: Config, size: nat, s: State, taken: State, batch: seq<Test>)
    requires Taken(cfg, size, s, [], taken, batch)
    ensures Pending(taken) + multiset(batch) == Pending(s)
  {
    assert Held(s) == Held(taken) + multiset(batch);
    assert Pending(taken) + multiset(batch) == (Held(taken) + multiset(batch)) + multiset(s.sequential);
  }

  lemma AfterHeld(cfg: Config, i: Worker, taken: State, batch: seq<Test>)
    ensures Pending(After(cfg, i, taken, batch)) == Pending(taken)
  {
    if batch != [] { ClaimClaims(cfg, batch, i, taken); }
  }

  lemma TakenKeeps(cfg: Config, size: nat, s: State, running: map<Worker, seq<Test>>, r: State, batch: seq<Test>)
    requires Coherent(cfg, s, running) && Alone(cfg, s, running)
    requires Taken(cfg, size, s, [], r, batch)
    ensures Coherent(cfg, r, running) && Alone(cfg, r, running)
    ensures |s.alive| > 1 ==> forall t | t in batch :: !RunsAlone(cfg, t)
  {
    CoherentSame(cfg, s, r, running);
    assert batch[0..] == batch;
    AloneFiles(cfg, s, running);
    AlonePart(cfg, s, running, r, running);
  }

  lemma LetGoKeeps(cfg: Config, s: State, running: map<Worker, seq<Test>>, i: Worker)
    requires Coherent(cfg, s, running) && Alone(cfg, s, running)
    requires i in s.alive && i !in running && s.files == []
    ensures Coherent(cfg, s.(alive := s.alive - {i}), running) && Alone(cfg, s.(alive := s.alive - {i}), running)
  {
    QueuesFit(cfg, s, running);
    WaitsSame(cfg, s, s.(alive := s.alive - {i}));
    CoherentSame(cfg, s, s.(alive := s.alive - {i}), running);
    forall w, t ensures AloneAt(cfg, s.(alive := s.alive - {i}), running, w, t) {
      assert AloneAt(cfg, s, running, w, t);
    }
  }

  lemma DispatchKeeps(cfg: Config, s: State, running: map<Worker, seq<Test>>, i: Worker, batch: seq<Test>)
    requires Coherent(cfg, s, running) && Alone(cfg, s, running)
    requires i in s.alive && i !in running && batch != [] && running.Keys <= s.alive
    requires forall t | t in batch :: FirstActive(Keys(cfg, t), s.active).None?
    requires |s.alive| > 1 ==> forall t | t in batch :: !RunsAlone(cfg, t)
    ensures var r := Claim(cfg, batch, i, s).(inProgress := s.inProgress + 1);
            && Coherent(cfg, r, running[i := batch]) && Alone(cfg, r, running[i := batch])
            && r == s.(active := r.active, order := r.order, inProgress := r.inProgress)
  {
    var r := Claim(cfg, batch, i, s).(inProgress := s.inProgress + 1);
    ClaimClaims(cfg, batch, i, s);
    ClaimsCoherent(cfg, s, running, i, batch, r);
    AloneDispatch(cfg, s, r, running, i, batch);
  }

  lemma AloneDispatch(cfg: Config, s: State, r: State, running: map<Worker, seq<Test>>, i: Worker, batch: seq<Test>)
    requires Alone(cfg, s, running) && i in s.alive && i !in running && running.Keys <= s.alive
    requires |s.alive| > 1 ==> forall t | t in batch :: !RunsAlone(cfg, t)
    requires r.alive == s.alive && r.files == s.files && r.sequential == s.sequential
    ensures Alone(cfg, r, running[i := batch])
  {
    OnlyMember(s.alive, i);
    var now := running[i := batch];
    forall w, t ensures AloneAt(cfg, r, now, w, t) { assert AloneAt(cfg, s, running, w, t); }
  }

  lemma ClaimsCoherent(cfg: Config, s: State, running: map<Worker, seq<Test>>, i: Worker, batch: seq<Test>, r: State)
    requires Coherent(cfg, s, running) && i !in running && batch != []
    requires forall t | t in batch :: FirstActive(Keys(cfg, t), s.active).None?
    requires Claimed(s, r.(inProgress := s.inProgress), KeysOf(cfg, batch), i) && r.inProgress == s.inProgress + 1
    ensures Coherent(cfg, r, running[i := batch])
  {
    var gained, now := KeysOf(cfg, batch), running[i := batch];
    var c := r.(inProgress := s.inProgress);
    forall k ensures KeyFits(cfg, r, now, k) {
      assert ClaimedAt(s, c, gained, i, k) && KeyFits(cfg, s, running, k);
    }
    forall w ensures BatchFits(cfg, r, now, w) {
      assert BatchFits(cfg, s, running, w);
      if w in now {
        forall t, k | t in now[w] && k in Keys(cfg, t) ensures k in r.active && r.active[k] == w {
          assert ClaimedAt(s, c, gained, i, k);
        }
      }
    }
  }

  // ----- runs

  /** The tests still to be finished and the "ready" messages still to come. */
  ghost function Measure(tests: multiset<Test>, sys: System): int {
    |tests| - |sys.done| + |sys.starting|
  }

  lemma StepKeeps(cfg: Config, tests: multiset<Test>, sys: System, e: Event)
    requires Inv(cfg, tests, sys) && Enabled(sys, e)
    ensures e.i in sys.master.alive
    ensures Inv(cfg, tests, Step(cfg, sys, e))
    ensures Measure(tests, Step(cfg, sys, e)) < Measure(tests, sys)
  {
    var s := if e.Ready? then sys.master else Finish(e.i, sys.master);
    var idle := Answered(sys, e).(master := s);
    AnswerKeeps(cfg, tests, sys, e, idle);
    var (r, batch) := Schedule(cfg, e.i, s);
    ScheduleKeeps(cfg, s, idle.running, e.i, r, batch);
    DispatchConserves(cfg, s, idle, e.i, r, batch);
    DispatchStaffs(cfg, s, idle, e.i, r, batch);
    assert Step(cfg, sys, e) == Dispatched(idle, e.i, r, batch);
  }

  /** The worker that sent a message is idle until the master has handled it. */
  ghost predicate Idle(sys: System, i: Worker) {
    && i in sys.master.alive && i !in sys.running && i !in sys.starting
    && sys.master.alive == sys.starting + sys.running.Keys + {i}
    && sys.starting !! sys.running.Keys
  }

  lemma AnswerKeeps(cfg: Config, tests: multiset<Test>, sys: System, e: Event, idle: System)
    requires Inv(cfg, tests, sys) && Enabled(sys, e)
    requires idle == Answered(sys, e).(master := if e.Ready? then sys.master else Finish(e.i, sys.master))
    ensures Coherent(cfg, idle.master, idle.running) && Alone(cfg, idle.master, idle.running)
    ensures Idle(idle, e.i) && Tests(idle) == tests
    ensures Measure(tests, idle) < Measure(tests, sys)
  {
    AnswerIdles(sys, e, idle);
    if e.TestsFinished? {
      FinishKeeps(cfg, sys.master, sys.running, e.i);
      FinishConserves(cfg, sys, e.i, idle);
    }
  }

  lemma AnswerIdles(sys: System, e: Event, idle: System)
    requires Staffed(sys) && Enabled(sys, e)
    requires idle == Answered(sys, e).(master := if e.Ready? then sys.master else Finish(e.i, sys.master))
    ensures Idle(idle, e.i)
  {
    if e.TestsFinished? { assert idle.running.Keys == sys.running.Keys - {e.i}; }
  }

  lemma FinishConserves(cfg: Config, sys: System, i: Worker, idle: System)
    requires i in sys.running && Coherent(cfg, sys.master, sys.running)
    requires idle == Answered(sys, TestsFinished(i)).(master := Finish(i, sys.master))
    requires Pending(idle.master) == Pending(sys.master)
    ensures Tests(idle) == Tests(sys) && |idle.done| > |sys.done|
  {
    PooledWithout(sys.running, i);
    assert BatchFits(cfg, sys.master, sys.running, i);
    Regroup(Pending(sys.master), multiset(sys.running[i]), Pooled(idle.running), sys.done);
  }

  lemma Regroup(p: multiset<Test>, batch: multiset<Test>, rest: multiset<Test>, done: multiset<Test>)
    ensures p + (batch + rest) + done == p + rest + (done + batch)
    ensures (p + batch) + rest + done == p + (batch + rest) + done
  {
  }

  lemma DispatchConserves(cfg: Config, s: State, idle: System, i: Worker, r: State, batch: seq<Test>)
    requires idle.master == s && Idle(idle, i) && Scheduled(cfg, s, idle.running, i, r, batch)
    ensures Tests(Dispatched(idle, i, r, batch)) == Tests(idle)
  {
    var after := Dispatched(idle, i, r, batch);
    if batch != [] {
      PooledPut(idle.running, i, batch);
      assert idle.running - {i} == idle.running;
    }
    assert Pooled(after.running) == multiset(batch) + Pooled(idle.running);
    Regroup(Pending(r), multiset(batch), Pooled(idle.running), idle.done);
  }

  lemma DispatchStaffs(cfg: Config, s: State, idle: System, i: Worker, r: State, batch: seq<Test>)
    requires idle.master == s && Idle(idle, i) && Scheduled(cfg, s, idle.running, i, r, batch)
    ensures Staffed(Dispatched(idle, i, r, batch))
  {
  }

  /** A sequence of messages, each one owed by its worker when it is handled. */
  ghost predicate IsRun(cfg: Config, sys: System, events: seq<Event>)
    decreases |events|
  {
    events == [] ||
    (Enabled(sys, events[0]) && events[0].i in sys.master.alive && IsRun(cfg, Step(cfg, sys, events[0]), events[1..]))
  }

  ghost function Outcome(cfg: Config, sys: System, events: seq<Event>): System
    requires IsRun(cfg, sys, events)
    decreases |events|
  {
    if events == [] then sys else Outcome(cfg, Step(cfg, sys, events[0]), events[1..])
  }

  /** Every run keeps the invariant, and no run is longer than the tests and workers allow. */
  lemma {:induction false} RunKeeps(cfg: Config, tests: multiset<Test>, sys: System, events: seq<Event>)
    requires Inv(cfg, tests, sys) && IsRun(cfg, sys, events)
    ensures Inv(cfg, tests, Outcome(cfg, sys, events))
    ensures |events| <= |tests| + |sys.starting| - |sys.done|
    decreases |events|
  {
    if events == [] {
      DoneBounded(sys);
    } else {
      StepKeeps(cfg, tests, sys, events[0]);
      RunKeeps(cfg, tests, Step(cfg, sys, events[0]), events[1..]);
    }
  }

  lemma DoneBounded(sys: System)
    ensures |sys.done| <= |Tests(sys)|
  {
    assert Tests(sys) == Pending(sys.master) + Pooled(sys.running) + sys.done;
  }

  ghost function Start(files: seq<Test>, sequential: seq<Test>, workers: set<Worker>): System {
    System(State(files, sequential, map[], [], map[], 0, workers), workers, map[], multiset{}, [])
  }

  lemma StartFits(cfg: Config, files: seq<Test>, sequential: seq<Test>, workers: set<Worker>)
    requires workers != {}
    requires forall t | t in files :: !RunsAlone(cfg, t)
    requires forall t | t in sequential :: RunsAlone(cfg, t)
    ensures Inv(cfg, multiset(files) + multiset(sequential), Start(files, sequential, workers))
  {
    var s := Start(files, sequential, workers).master;
    forall k ensures KeyFits(cfg, s, map[], k) {}
    forall w ensures BatchFits(cfg, s, map[], w) {}
  }

  // ----- what the invariant means

  /** The guard of the main loop. */
  predicate Goes(s: State) {
    s.files != [] || s.sequential != [] || s.inProgress > 0
  }

  /** Tests that share a conflict key are never out with two workers at once. */
  lemma NoOverlap(cfg: Config, tests: multiset<Test>, sys: System, v: Worker, w: Worker, t: Test, u: Test)
    requires Inv(cfg, tests, sys)
    requires v in sys.running && w in sys.running && v != w && t in sys.running[v] && u in sys.running[w]
    ensures forall k :: !(k in Keys(cfg, t) && k in Keys(cfg, u))
    ensures !RunsAlone(cfg, t)
  {
    assert BatchFits(cfg, sys.master, sys.running, v) && BatchFits(cfg, sys.master, sys.running, w);
    assert AloneAt(cfg, sys.master, sys.running, v, t);
    assert Claims(cfg, sys.master, v, sys.running[v]) && Claims(cfg, sys.master, w, sys.running[w]);
    forall k ensures !(k in Keys(cfg, t) && k in Keys(cfg, u)) {
      if k in Keys(cfg, t) { assert sys.master.active[k] == v; }
      if k in Keys(cfg, u) { assert sys.master.active[k] == w; }
    }
  }

  /** A test marked "all" is only ever out with the last worker. */
  lemma RunsByItself(cfg: Config, tests: multiset<Test>, sys: System, w: Worker, t: Test)
    requires Inv(cfg, tests, sys) && w in sys.running && t in sys.running[w] && RunsAlone(cfg, t)
    ensures sys.master.alive == {w} && sys.starting == {} && sys.running == map[w := sys.running[w]]
  {
    assert AloneAt(cfg, sys.master, sys.running, w, t);
  }

  /** While the loop goes on, some worker owes a message. */
  lemma NeverStalls(cfg: Config, tests: multiset<Test>, sys: System)
    requires Inv(cfg, tests, sys) && Goes(sys.master)
    ensures exists e :: Enabled(sys, e)
  {
    if sys.starting != {} {
      var i :| i in sys.starting;
      assert Enabled(sys, Ready(i));
    } else {
      assert sys.running != map[];
      var i :| i in sys.running;
      assert Enabled(sys, TestsFinished(i));
    }
  }

  /** The loop ends, or the last worker is let go, exactly when every test is done. */
  lemma EndsDone(cfg: Config, tests: multiset<Test>, sys: System)
    requires Inv(cfg, tests, sys)
    ensures !Goes(sys.master) <==> sys.done == tests
    ensures sys.master.alive == {} ==> sys.done == tests
    ensures sys.master.inProgress >= 0
  {
    var s := sys.master;
    if sys.master.alive == {} || !Goes(s) {
      assert |sys.running| == 0;
      assert sys.running == map[];
      forall k ensures k !in s.waiting { assert KeyFits(cfg, s, sys.running, k); }
      assert s.waiting == map[];
      assert sys.done == tests;
    }
    if sys.done == tests {
      EmptyRest(Pending(s) + Pooled(sys.running), sys.done);
      assert multiset(s.files) == multiset{} && multiset(s.sequential) == multiset{};
      assert |s.files| == |multiset(s.files)| && |s.sequential| == |multiset(s.sequential)|;
      forall w ensures w !in sys.running {
        if w in sys.running { NothingRuns(cfg, sys, w); }
      }
      assert sys.running == map[];
    }
  }

  lemma NothingRuns(cfg: Config, sys: System, w: Worker)
    requires Coherent(cfg, sys.master, sys.running) && w in sys.running
    ensures Pooled(sys.running) != multiset{}
  {
    assert BatchFits(cfg, sys.master, sys.running, w);
    PooledWithout(sys.running, w);
    assert sys.running[w][0] in Pooled(sys.running);
  }

  lemma EmptyRest(rest: multiset<Test>, done: multiset<Test>)
    requires rest + done == done
    ensures rest == multiset{}
  {
    assert |rest + done| == |rest| + |done|;
  }

  // ----- the whole program

  /** The master connected to its workers, which answer in any order. */
  class Session {
    const master: Master
    var starting: set<Worker>
    var running: map<Worker, seq<Test>>
    var done: multiset<Test>
    ghost var log: seq<Test>

    ghost function View(): System
      reads this, master
    {
      System(master.View(), starting, running, done, log)
    }

    constructor (master: Master)
      ensures this.master == master
      ensures View() == System(master.View(), master.workerProcs, map[], multiset{}, [])
    {
      this.master := master;
      starting := master.workerProcs;
      running, done, log := map[], multiset{}, [];
    }

    /** Worker i sends the message it owes, and the master handles it. */
    method Serve(i: Worker)
      requires i in master.workerProcs
      modifies this, master
      ensures View() == Step(master.cfg, old(View()), Owed(old(View()), i))
    {
      var finished := i in running;
      var batch := master.OnMessage(finished, i);
      if finished {
        done := done + multiset(running[i]);
        running := running - {i};
      } else {
        starting := starting - {i};
      }
      if batch != [] {
        running := running[i := batch];
      }
      log := log + batch;
    }
  }

  function Owed(sys: System, i: Worker): Event {
    if i in sys.running then TestsFinished(i) else Ready(i)
  }

  method SpawnWorkers(workers: nat) returns (procs: set<Worker>)
    ensures forall i :: i in procs <==> 1 <= i <= workers
  {
    procs := {};
    for i := 1 to workers + 1
      invariant forall j :: j in procs <==> 1 <= j < i
    {
      procs := procs + {i};
    }
  }

  /**
   * What run_all_tests_parallel sets up: the files to run in parallel, the last one given first as they are popped
   * from the end, or in the order shuffle() gave them; and workers 1, 2, .., no more of them than asked for or than
   * there are such files, but at least one.
   */
  method Plan(disk: Disk, testFiles: seq<Test>, maxWorkers: nat, valgrind: bool, shuffle: bool, shuffled: seq<Test>)
    returns (cfg: Config, files: seq<Test>, sequential: seq<Test>, procs: set<Worker>)
    requires shuffle ==> multiset(shuffled) == multiset(Select(disk, testFiles, false))
    ensures if shuffle then files == shuffled
            else |files| == |Select(disk, testFiles, false)|
                 && forall i | 0 <= i < |files| :: files[i] == Select(disk, testFiles, false)[|files| - 1 - i]
    ensures sequential == Select(disk, testFiles, true)
    ensures cfg.total == |files| && cfg.valgrind == valgrind && cfg.shuffle == shuffle
    ensures forall t | t in testFiles :: t in cfg.conflicts && cfg.conflicts[t] == ConflictsOf(disk, t)
    ensures forall i :: i in procs <==> i == 1 || (1 < i <= maxWorkers && i <= |files|)
    ensures multiset(files) + multiset(sequential) == multiset(testFiles)
    ensures Inv(cfg, multiset(testFiles), Start(files, sequential, procs))
  {
    var conflicts;
    files, sequential, conflicts := Arrange(disk, testFiles, shuffle, shuffled);
    var workers := if maxWorkers < |files| then maxWorkers else |files|;
    procs := SpawnWorkers(if workers < 1 then 1 else workers);
    cfg := Config(conflicts, |files|, valgrind, shuffle);
    PlanFits(disk, cfg, testFiles, files, sequential, procs);
  }

  /** The partition, and the order of the files to run in parallel. */
  method Arrange(disk: Disk, testFiles: seq<Test>, shuffle: bool, shuffled: seq<Test>)
    returns (files: seq<Test>, sequential: seq<Test>, conflicts: map<Test, seq<Key>>)
    requires shuffle ==> multiset(shuffled) == multiset(Select(disk, testFiles, false))
    ensures if shuffle then files == shuffled
            else |files| == |Select(disk, testFiles, false)|
                 && forall i | 0 <= i < |files| :: files[i] == Select(disk, testFiles, false)[|files| - 1 - i]
    ensures sequential == Select(disk, testFiles, true)
    ensures multiset(files) == multiset(Select(disk, testFiles, false))
    ensures forall t :: t in conflicts <==> t in testFiles
    ensures forall t | t in conflicts :: conflicts[t] == ConflictsOf(disk, t)
  {
    files, sequential, conflicts := Partition(disk, testFiles);
    ReversePermutes(files);
    forall i | 0 <= i < |files| ensures Reverse(files)[i] == files[|files| - 1 - i] { ReverseAt(files, i); }
    files := if shuffle then shuffled else Reverse(files);
  }

  lemma PlanFits(disk: Disk, cfg: Config, testFiles: seq<Test>, files: seq<Test>, sequential: seq<Test>,
                 procs: set<Worker>)
    requires forall t :: t in cfg.conflicts <==> t in testFiles
    requires forall t | t in cfg.conflicts :: cfg.conflicts[t] == ConflictsOf(disk, t)
    requires multiset(files) == multiset(Select(disk, testFiles, false)) && sequential == Select(disk, testFiles, true)
    requires 1 in procs
    ensures multiset(files) + multiset(sequential) == multiset(testFiles)
    ensures Inv(cfg, multiset(testFiles), Start(files, sequential, procs))
  {
    PartitionFits(disk, cfg, testFiles, files, sequential);
    StartFits(cfg, files, sequential, procs);
  }

  /**
   * run_all_tests_parallel; `shuffled` is the order shuffle() would give the tests to run in parallel.
   * Whatever worker answers first, the program ends with every test done, as often as it was asked for.
   */
  method RunAllTestsParallel(disk: Disk, testFiles: seq<Test>, maxWorkers: nat, valgrind: bool, shuffle: bool,
                             shuffled: seq<Test>)
    returns (done: multiset<Test>)
    requires shuffle ==> multiset(shuffled) == multiset(Select(disk, testFiles, false))
    ensures done == multiset(testFiles)
  {
    var cfg, files, sequential, procs := Plan(disk, testFiles, maxWorkers, valgrind, shuffle, shuffled);
    ghost var events;
    done, events := Drain(cfg, files, sequential, procs);
  }

  /** The main loop: it handles the messages `events` of one of the runs from the start, up to its end. */
  method Drain(cfg: Config, files: seq<Test>, sequential: seq<Test>, procs: set<Worker>)
    returns (done: multiset<Test>, ghost events: seq<Event>)
    requires Inv(cfg, multiset(files) + multiset(sequential), Start(files, sequential, procs))
    ensures done == multiset(files) + multiset(sequential)
    ensures IsRun(cfg, Start(files, sequential, procs), events)
    ensures var end := Outcome(cfg, Start(files, sequential, procs), events);
            end.done == done && !Goes(end.master)
  {
    var master := new Master(cfg, files, sequential, procs);
    var session := new Session(master);
    ghost var tests, start := multiset(files) + multiset(sequential), Start(files, sequential, procs);
    events := [];
    while master.testFiles != [] || master.sequentialTests != [] || master.testsInProgress > 0
      invariant Inv(cfg, tests, session.View())
      invariant IsRun(cfg, start, events) && Outcome(cfg, start, events) == session.View()
      decreases Measure(tests, session.View())
    {
      ghost var before := session.View();
      NeverStalls(cfg, tests, before);
      var i :| i in session.starting || i in session.running;
      StepKeeps(cfg, tests, before, Owed(before, i));
      session.Serve(i);
      RunGoesOn(cfg, start, events, Owed(before, i));
      events := events + [Owed(before, i)];
    }
    EndsDone(cfg, tests, session.View());
    done := session.done;
  }

  lemma {:induction false} RunGoesOn(cfg: Config, sys: System, events: seq<Event>, e: Event)
    requires IsRun(cfg, sys, events)
    requires Enabled(Outcome(cfg, sys, events), e) && e.i in Outcome(cfg, sys, events).master.alive
    ensures IsRun(cfg, sys, events + [e])
    ensures Outcome(cfg, sys, events + [e]) == Step(cfg, Outcome(cfg, sys, events), e)
    decreases |events|
  {
    if events == [] {
      assert [e][1..] == [];
    } else {
      assert (events + [e])[1..] == events[1..] + [e];
      RunGoesOn(cfg, Step(cfg, sys, events[0]), events[1..], e);
    }
  }

  lemma PartitionFits(disk: Disk, cfg: Config, testFiles: seq<Test>, files: seq<Test>, sequential: seq<Test>)
    requires forall t :: t in cfg.conflicts <==> t in testFiles
    requires forall t | t in cfg.conflicts :: cfg.conflicts[t] == ConflictsOf(disk, t)
    requires multiset(files) == multiset(Select(disk, testFiles, false)) && sequential == Select(disk, testFiles, true)
    ensures forall t | t in files :: !RunsAlone(cfg, t)
    ensures forall t | t in sequential :: RunsAlone(cfg, t)
    ensures multiset(files) + multiset(sequential) == multiset(testFiles)
  {
    SelectSplits(disk, testFiles);
    forall t | t in files ensures !RunsAlone(cfg, t) {
      assert t in multiset(files);
    }
  }

  // ----- the size of a batch

  /** The tests that no active key keeps back. */
  function Free(cfg: Config, files: seq<Test>, active: map<Key, Worker>): nat {
    if files == [] then 0
    else
      var last := |files| - 1;
      (if FirstActive(Keys(cfg, files[last]), active).None? then 1 else 0) + Free(cfg, files[..last], active)
  }

  function Min(a: nat, b: nat): nat {
    if a < b then a else b
  }

  lemma {:induction false} TakeSize(cfg: Config, size: nat, s: State, batch: seq<Test>)
    requires |batch| <= size + 1
    ensures |Take(cfg, size, s, batch).1| == Min(size + 1, |batch| + Free(cfg, s.files, s.active))
    decreases |s.files|
  {
    if |batch| <= size && s.files != [] {
      var file := s.files[|s.files| - 1];
      var rest := s.(files := s.files[..|s.files| - 1]);
      match FirstActive(Keys(cfg, file), s.active)
      case Some(k) => TakeSize(cfg, size, rest.(waiting := s.waiting[k := Queue(s.waiting, k) + [file]]), batch);
      case None => TakeSize(cfg, size, rest, batch + [file]);
    }
  }

  /**
   * The loop tests the size before it adds a file: with enough tests that no key keeps back, and only then,
   * a batch is one larger than the batch size.
   */
  lemma BatchExact(cfg: Config, s: State, i: Worker)
    requires i in s.alive
    ensures var size, free := BatchSize(cfg, |s.alive|), Free(cfg, Admit(s).files, s.active);
            && |Schedule(cfg, i, s).1| == Min(size + 1, free)
            && (|Schedule(cfg, i, s).1| > size <==> free > size)
            && 1 <= size <= if cfg.valgrind then 1 else if cfg.shuffle then 4 else 32
  {
    BatchSizeIs(cfg, |s.alive|);
    TakeSize(cfg, BatchSize(cfg, |s.alive|), Admit(s), []);
  }

  /** Under valgrind the code asks for one test at a time; the first worker of two tests without keys gets both. */
  lemma ValgrindBatchOfTwo()
    ensures var cfg, start := Config(map[], 2, true, false), Start(["b", "a"], [], {1, 2});
            && Inv(cfg, multiset{"a", "b"}, start) && Enabled(start, Ready(1))
            && BatchSize(cfg, |start.master.alive|) == 1 && |Schedule(cfg, 1, start.master).1| == 2
  {
    var cfg, start := Config(map[], 2, true, false), Start(["b", "a"], [], {1, 2});
    StartFits(cfg, ["b", "a"], [], {1, 2});
    assert multiset(["b", "a"]) + multiset([]) == multiset{"a", "b"};
    BatchExact(cfg, start.master, 1);
    assert ["b", "a"][..1] == ["b"] && ["b"][..0] == [];
    assert Free(cfg, ["b"], map[]) == 1;
  }
}
