/**
 * The master of ci/run-tests-parallel.php: partition of the tests by conflict keys,
 * and the handling of one "ready" or "tests_finished" message.
 */
module Scheduler {
  import opened Wrappers

  type Test = string
  type Key = string
  type Worker = nat

  const ALL: Key := "all"

  /** $fileConflictsWith, $totalFileCount and the two options that bound a batch. */
  datatype Config = Config(conflicts: map<Test, seq<Key>>, total: nat, valgrind: bool, shuffle: bool)

  /** The variables of the master.  `order` is the insertion order of $activeConflicts. */
  datatype State = State(files: seq<Test>, sequential: seq<Test>, active: map<Key, Worker>, order: seq<Key>,
                         waiting: map<Key, seq<Test>>, inProgress: int, alive: set<Worker>)

  function Keys(cfg: Config, t: Test): seq<Key> {
    if t in cfg.conflicts then cfg.conflicts[t] else []
  }

  predicate RunsAlone(cfg: Config, t: Test) {
    ALL in Keys(cfg, t)
  }

  function Queue(waiting: map<Key, seq<Test>>, k: Key): seq<Test> {
    if k in waiting then waiting[k] else []
  }

  function Reverse<T>(s: seq<T>): (r: seq<T>)
    ensures |r| == |s|
  {
    if s == [] then [] else Reverse(s[1..]) + [s[0]]
  }

  function Without(keys: seq<Key>, k: Key): (r: seq<Key>)
    ensures forall j :: j in r <==> j in keys && j != k
  {
    if keys == [] then []
    else
      assert keys == [keys[0]] + keys[1..];
      if keys[0] == k then Without(keys[1..], k) else [keys[0]] + Without(keys[1..], k)
  }

  lemma {:induction false} ReverseAt<T>(s: seq<T>, i: nat)
    requires i < |s|
    ensures Reverse(s)[i] == s[|s| - 1 - i]
  {
    if i < |s| - 1 { ReverseAt(s[1..], i); }
  }

  // ----- "tests_finished": giving back the conflict keys of a worker

  function ReleaseKey(k: Key, i: Worker, held: map<Key, Worker>, s: State): (r: State)
    ensures r.alive == s.alive
  {
    if k in held && held[k] == i then
      s.(active := s.active - {k}, order := Without(s.order, k),
         files := s.files + Reverse(Queue(s.waiting, k)), waiting := s.waiting - {k})
    else s
  }

  function Release(keys: seq<Key>, i: Worker, held: map<Key, Worker>, s: State): (r: State)
    ensures r.alive == s.alive
    decreases |keys|
  {
    if keys == [] then s else Release(keys[1..], i, held, ReleaseKey(keys[0], i, held, s))
  }

  function Finish(i: Worker, s: State): (r: State)
    ensures r.alive == s.alive
  {
    Release(s.order, i, s.active, s.(inProgress := s.inProgress - 1))
  }

  // ----- "ready": handing out the next batch

  function BatchSize(cfg: Config, workers: nat): (n: nat)
    requires workers > 0
  {
    var maxBatchSize := if cfg.valgrind then 1 else if cfg.shuffle then 4 else 32;
    var ceil := (cfg.total + workers - 1) / workers;
    var average := if ceil > 1 then ceil else 1;
    if maxBatchSize < average then maxBatchSize else average
  }

  /** The first key of the list that is taken. */
  function FirstActive(keys: seq<Key>, active: map<Key, Worker>): (r: Option<Key>)
    ensures r.Some? ==> r.value in keys && r.value in active
    ensures r.None? <==> forall k | k in keys :: k !in active
  {
    if keys == [] then None
    else
      assert keys == [keys[0]] + keys[1..];
      if keys[0] in active then Some(keys[0]) else FirstActive(keys[1..], active)
  }

  /** Of the taken keys it is the one that comes first in the list. */
  lemma {:induction false} FirstActiveIsFirst(keys: seq<Key>, active: map<Key, Worker>, n: nat)
    requires n < |keys| && keys[n] in active && forall j | 0 <= j < n :: keys[j] !in active
    ensures FirstActive(keys, active) == Some(keys[n])
  {
    if n > 0 {
      assert keys[0] !in active;
      FirstActiveIsFirst(keys[1..], active, n - 1);
    }
  }

  function Take(cfg: Config, size: nat, s: State, batch: seq<Test>): (State, seq<Test>)
    decreases |s.files|
  {
    if |batch| <= size && s.files != [] then
      var file := s.files[|s.files| - 1];
      var rest := s.(files := s.files[..|s.files| - 1]);
      match FirstActive(Keys(cfg, file), s.active)
      case Some(k) => Take(cfg, size, rest.(waiting := s.waiting[k := Queue(s.waiting, k) + [file]]), batch)
      case None => Take(cfg, size, rest, batch + [file])
    else (s, batch)
  }

  function ClaimKey(k: Key, i: Worker, s: State): State {
    s.(active := s.active[k := i], order := if k in s.active then s.order else s.order + [k])
  }

  function ClaimKeys(keys: seq<Key>, i: Worker, s: State): State {
    if keys == [] then s else ClaimKeys(keys[1..], i, ClaimKey(keys[0], i, s))
  }

  function Claim(cfg: Config, batch: seq<Test>, i: Worker, s: State): State {
    if batch == [] then s else Claim(cfg, batch[1..], i, ClaimKeys(Keys(cfg, batch[0]), i, s))
  }

  /** A key that was not taken comes last, any other stays where it is. */
  lemma ClaimedLast(k: Key, i: Worker, s: State)
    ensures s.order <= ClaimKey(k, i, s).order <= s.order + [k]
    ensures k in s.active ==> ClaimKey(k, i, s).order == s.order
    ensures k !in s.active ==> ClaimKey(k, i, s).order != s.order
  {
    assert |s.order + [k]| == |s.order| + 1;
  }

  /** Keys are claimed in the order of the list, and tests in the order of the batch. */
  lemma {:induction false} ClaimKeysAppend(keys: seq<Key>, k: Key, i: Worker, s: State)
    ensures ClaimKeys(keys + [k], i, s) == ClaimKey(k, i, ClaimKeys(keys, i, s))
    decreases |keys|
  {
    if keys == [] {
      assert [k][1..] == [];
    } else {
      assert (keys + [k])[1..] == keys[1..] + [k];
      ClaimKeysAppend(keys[1..], k, i, ClaimKey(keys[0], i, s));
    }
  }

  lemma {:induction false} ClaimAppend(cfg: Config, batch: seq<Test>, t: Test, i: Worker, s: State)
    ensures Claim(cfg, batch + [t], i, s) == ClaimKeys(Keys(cfg, t), i, Claim(cfg, batch, i, s))
    decreases |batch|
  {
    if batch == [] {
      assert [t][1..] == [];
    } else {
      assert (batch + [t])[1..] == batch[1..] + [t];
      ClaimAppend(cfg, batch[1..], t, i, ClaimKeys(Keys(cfg, batch[0]), i, s));
    }
  }

  /** The queue of a key that is given back comes after the pending tests, its last test first. */
  lemma ReleasedQueue(k: Key, i: Worker, held: map<Key, Worker>, s: State)
    requires k in held && held[k] == i && k in s.waiting
    ensures var r, n := ReleaseKey(k, i, held, s), |s.waiting[k]|;
            && k !in r.waiting && s.files <= r.files && |r.files| == |s.files| + n
            && forall j | 0 <= j < n :: r.files[|s.files|..][j] == s.waiting[k][n - 1 - j]
  {
    forall j | 0 <= j < |s.waiting[k]| ensures Reverse(s.waiting[k])[j] == s.waiting[k][|s.waiting[k]| - 1 - j] {
      ReverseAt(s.waiting[k], j);
    }
  }

  /** Keys are given back in the order in which they were first claimed. */
  lemma {:induction false} ReleaseAppend(keys: seq<Key>, k: Key, i: Worker, held: map<Key, Worker>, s: State)
    ensures Release(keys + [k], i, held, s) == ReleaseKey(k, i, held, Release(keys, i, held, s))
    decreases |keys|
  {
    if keys == [] {
      assert [k][1..] == [];
    } else {
      assert (keys + [k])[1..] == keys[1..] + [k];
      ReleaseAppend(keys[1..], k, i, held, ReleaseKey(keys[0], i, held, s));
    }
  }

  lemma CeilFacts(total: nat, workers: nat)
    requires workers > 0
    ensures var ceil := (total + workers - 1) / workers;
            ceil * workers >= total && (total > 0 ==> ceil >= 1) && (ceil >= 1 ==> (ceil - 1) * workers < total)
  {
    var sum := total + workers - 1;
    var ceil := sum / workers;
    assert sum == ceil * workers + sum % workers;
    assert (ceil - 1) * workers == ceil * workers - workers;
  }

  /**
   * The batch size is the least number of at least one with which the workers would get through all tests in one
   * round, but no more than 1 under valgrind, 4 when the order is shuffled, and 32 otherwise.
   */
  lemma BatchSizeIs(cfg: Config, workers: nat)
    requires workers > 0
    ensures var n := BatchSize(cfg, workers);
            var most := if cfg.valgrind then 1 else if cfg.shuffle then 4 else 32;
            1 <= n <= most && (n < most ==> n * workers >= cfg.total) && (n > 1 ==> (n - 1) * workers < cfg.total)
  {
    CeilFacts(cfg.total, workers);
    var n, ceil := BatchSize(cfg, workers), (cfg.total + workers - 1) / workers;
    if 1 < n < ceil { assert (n - 1) * workers <= (ceil - 1) * workers; }
  }

  /** Sequential tests join the others once a single worker is left. */
  function Admit(s: State): State {
    if |s.alive| == 1 && s.sequential != [] then s.(files := s.files + s.sequential, sequential := [])
    else s
  }

  /** The sequential tests are popped first. */
  lemma AdmittedLast(s: State)
    ensures |s.alive| != 1 ==> Admit(s) == s
    ensures |s.alive| == 1 ==> Admit(s).sequential == [] && |s.files| <= |Admit(s).files|
                               && Admit(s).files[..|s.files|] == s.files
                               && Admit(s).files[|s.files|..] == s.sequential
  {
    assert (s.files + s.sequential)[..|s.files|] == s.files;
    assert (s.files + s.sequential)[|s.files|..] == s.sequential;
  }

  /** The new state and the batch sent to worker i; an empty batch means that i was terminated. */
  function Schedule(cfg: Config, i: Worker, s: State): (State, seq<Test>)
    requires i in s.alive
  {
    var (taken, batch) := Take(cfg, BatchSize(cfg, |s.alive|), Admit(s), []);
    if batch != [] then (Claim(cfg, batch, i, taken).(inProgress := taken.inProgress + 1), batch)
    else (taken.(alive := taken.alive - {i}), [])
  }

  function Handle(cfg: Config, finished: bool, i: Worker, s: State): (State, seq<Test>)
    requires i in s.alive
  {
    Schedule(cfg, i, if finished then Finish(i, s) else s)
  }

  // ----- partition by conflicts

  /** What the test files and directories say; parsing them is not modelled. */
  datatype Disk = Disk(section: map<Test, seq<Key>>, dir: map<Test, string>, dirFile: map<string, seq<Key>>)

  function DirName(disk: Disk, t: Test): string {
    if t in disk.dir then disk.dir[t] else ""
  }

  function DirConflicts(disk: Disk, dir: string): seq<Key> {
    if dir in disk.dirFile then disk.dirFile[dir] else []
  }

  /** A --CONFLICTS-- section wins over the CONFLICTS file of the directory. */
  function ConflictsOf(disk: Disk, t: Test): seq<Key> {
    if t in disk.section then disk.section[t] else DirConflicts(disk, DirName(disk, t))
  }

  /** The tests, in order, that are marked "all" or that are not. */
  function Select(disk: Disk, files: seq<Test>, alone: bool): seq<Test> {
    if files == [] then []
    else (if (ALL in ConflictsOf(disk, files[0])) == alone then [files[0]] else []) + Select(disk, files[1..], alone)
  }

  lemma {:induction false} SelectAppend(disk: Disk, files: seq<Test>, t: Test, alone: bool)
    ensures Select(disk, files + [t], alone)
         == Select(disk, files, alone) + if (ALL in ConflictsOf(disk, t)) == alone then [t] else []
  {
    if files == [] {
      assert files + [t] == [t] && [t][1..] == [];
    } else {
      assert (files + [t])[1..] == files[1..] + [t];
      SelectAppend(disk, files[1..], t, alone);
    }
  }

  lemma {:induction false} SelectSplits(disk: Disk, files: seq<Test>)
    ensures multiset(Select(disk, files, false)) + multiset(Select(disk, files, true)) == multiset(files)
    ensures forall t | t in Select(disk, files, false) :: t in files && ALL !in ConflictsOf(disk, t)
    ensures forall t | t in Select(disk, files, true) :: t in files && ALL in ConflictsOf(disk, t)
  {
    if files != [] {
      SelectSplits(disk, files[1..]);
      assert files == [files[0]] + files[1..];
    }
  }

  /** Test i of `part` is test at[i] of `whole`, and the places grow. */
  predicate Places(at: seq<nat>, part: seq<Test>, whole: seq<Test>) {
    && |at| == |part|
    && (forall i | 0 <= i < |at| :: at[i] < |whole| && whole[at[i]] == part[i])
    && forall i, j | 0 <= i < j < |at| :: at[i] < at[j]
  }

  /** The tests of `part` stand in `whole` in the same order. */
  ghost predicate InOrderOf(part: seq<Test>, whole: seq<Test>) {
    exists at :: Places(at, part, whole)
  }

  lemma PlaceMore(at: seq<nat>, part: seq<Test>, front: seq<Test>, t: Test, chosen: bool)
    requires Places(at, part, front)
    ensures Places(if chosen then at + [|front|] else at, part + if chosen then [t] else [], front + [t])
  {
  }

  lemma {:induction false} SelectInOrder(disk: Disk, files: seq<Test>, alone: bool)
    ensures InOrderOf(Select(disk, files, alone), files)
    decreases |files|
  {
    if files == [] {
      assert Places([], Select(disk, files, alone), files);
    } else {
      var last := |files| - 1;
      var front, t := files[..last], files[last];
      assert files == front + [t];
      SelectAppend(disk, front, t, alone);
      SelectInOrder(disk, front, alone);
      var part := Select(disk, front, alone);
      var at :| Places(at, part, front);
      var chosen := (ALL in ConflictsOf(disk, t)) == alone;
      PlaceMore(at, part, front, t, chosen);
      assert Places(if chosen then at + [last] else at, Select(disk, files, alone), files);
    }
  }

  /**
   * A test takes its keys from its own section, else from the file of its directory, else it has none; it goes
   * to the sequential tests exactly when one of them is "all".  Both parts keep the order given.
   */
  method Partition(disk: Disk, testFiles: seq<Test>)
    returns (files: seq<Test>, sequential: seq<Test>, conflicts: map<Test, seq<Key>>)
    ensures files == Select(disk, testFiles, false) && sequential == Select(disk, testFiles, true)
    ensures forall t :: t in conflicts <==> t in testFiles
    ensures forall t | t in conflicts :: conflicts[t] == ConflictsOf(disk, t)
    ensures forall t | t in testFiles ::
              conflicts[t] == if t in disk.section then disk.section[t]
                              else var dir := if t in disk.dir then disk.dir[t] else "";
                                   if dir in disk.dirFile then disk.dirFile[dir] else []
    ensures forall t | t in testFiles :: t in sequential <==> "all" in conflicts[t]
    ensures forall t | t in testFiles :: t in files <==> "all" !in conflicts[t]
    ensures multiset(files) + multiset(sequential) == multiset(testFiles)
    ensures InOrderOf(files, testFiles) && InOrderOf(sequential, testFiles)
  {
    files, sequential, conflicts := [], [], map[];
    var dirConflictsWith: map<string, seq<Key>> := map[];
    for n := 0 to |testFiles|
      invariant files == Select(disk, testFiles[..n], false) && sequential == Select(disk, testFiles[..n], true)
      invariant Recorded(disk, conflicts, testFiles[..n])
      invariant forall d | d in dirConflictsWith :: dirConflictsWith[d] == DirConflicts(disk, d)
    {
      var file := testFiles[n];
      var found;
      if file in disk.section {
        found := disk.section[file];
      } else {
        var dir := DirName(disk, file);
        if dir !in dirConflictsWith {
          dirConflictsWith := dirConflictsWith[dir := DirConflicts(disk, dir)];
        }
        found := dirConflictsWith[dir];
      }
      assert testFiles[..n + 1] == testFiles[..n] + [file];
      SelectAppend(disk, testFiles[..n], file, false);
      SelectAppend(disk, testFiles[..n], file, true);
      if ALL in found {
        sequential := sequential + [file];
      } else {
        files := files + [file];
      }
      RecordOne(disk, conflicts, testFiles[..n], file, found);
      conflicts := conflicts[file := found];
    }
    assert testFiles[..|testFiles|] == testFiles;
    PartedBy(disk, testFiles, conflicts);
  }

  /** The keys of the files read so far. */
  ghost predicate Recorded(disk: Disk, conflicts: map<Test, seq<Key>>, read: seq<Test>) {
    && (forall t :: t in conflicts <==> t in read)
    && forall t | t in conflicts :: conflicts[t] == ConflictsOf(disk, t)
  }

  lemma RecordOne(disk: Disk, conflicts: map<Test, seq<Key>>, read: seq<Test>, file: Test, found: seq<Key>)
    requires Recorded(disk, conflicts, read) && found == ConflictsOf(disk, file)
    ensures Recorded(disk, conflicts[file := found], read + [file])
  {
  }

  lemma PartedBy(disk: Disk, files: seq<Test>, conflicts: map<Test, seq<Key>>)
    requires Recorded(disk, conflicts, files)
    ensures multiset(Select(disk, files, false)) + multiset(Select(disk, files, true)) == multiset(files)
    ensures forall t | t in files :: t in Select(disk, files, true) <==> "all" in conflicts[t]
    ensures forall t | t in files :: t in Select(disk, files, false) <==> "all" !in conflicts[t]
    ensures InOrderOf(Select(disk, files, false), files) && InOrderOf(Select(disk, files, true), files)
  {
    SelectInOrder(disk, files, false);
    SelectInOrder(disk, files, true);
    SelectSplits(disk, files);
    var parts := multiset(Select(disk, files, false)) + multiset(Select(disk, files, true));
    forall t | t in files ensures t in Select(disk, files, false) || t in Select(disk, files, true) {
      assert t in multiset(files);
      assert t in parts;
    }
  }

  // ----- the master itself

  class Master {
    const cfg: Config
    var testFiles: seq<Test>
    var sequentialTests: seq<Test>
    var activeConflicts: map<Key, Worker>
    var conflictOrder: seq<Key>
    var waitingTests: map<Key, seq<Test>>
    var testsInProgress: int
    var workerProcs: set<Worker>

    function View(): State
      reads this
    {
      State(testFiles, sequentialTests, activeConflicts, conflictOrder, waitingTests, testsInProgress, workerProcs)
    }

    constructor (cfg: Config, files: seq<Test>, sequential: seq<Test>, workers: set<Worker>)
      ensures this.cfg == cfg
      ensures View() == State(files, sequential, map[], [], map[], 0, workers)
    {
      this.cfg := cfg;
      testFiles, sequentialTests := files, sequential;
      activeConflicts, conflictOrder, waitingTests := map[], [], map[];
      testsInProgress := 0;
      workerProcs := workers;
    }

    method ReleaseConflicts(i: Worker)
      modifies this
      ensures View() == Release(old(conflictOrder), i, old(activeConflicts), old(View()))
    {
      var held, keys := activeConflicts, conflictOrder;
      ghost var start := View();
      for n := 0 to |keys|
        invariant Release(keys[n..], i, held, View()) == Release(keys, i, held, start)
      {
        var key := keys[n];
        assert keys[n..][1..] == keys[n + 1..];
        ghost var before := View();
        if key in held && held[key] == i {
          activeConflicts := activeConflicts - {key};
          conflictOrder := Without(conflictOrder, key);
          if key in waitingTests {
            RequeueWaiting(key);
            waitingTests := waitingTests - {key};
          } else {
            assert waitingTests - {key} == waitingTests;
            assert testFiles + [] == testFiles;
          }
        }
        assert View() == ReleaseKey(key, i, held, before);
      }
    }

    /** Pops the queue of a key from its end, pushing each test onto the pending ones. */
    method RequeueWaiting(key: Key)
      requires key in waitingTests
      modifies this`testFiles, this`waitingTests
      ensures testFiles == old(testFiles) + Reverse(old(waitingTests[key]))
      ensures waitingTests == old(waitingTests)[key := []]
    {
      ghost var q := waitingTests[key];
      ghost var n := 0;
      assert q[..|q|] == q && waitingTests == waitingTests[key := q];
      while waitingTests[key] != []
        invariant 0 <= n <= |q|
        invariant waitingTests == old(waitingTests)[key := q[..|q| - n]]
        invariant testFiles + Reverse(q[..|q| - n]) == old(testFiles) + Reverse(q)
        decreases |q| - n
      {
        var queue := waitingTests[key];
        var test := queue[|queue| - 1];
        assert queue == q[..|q| - n] && q[..|q| - n - 1] == queue[..|queue| - 1];
        ReverseLast(queue);
        waitingTests := waitingTests[key := queue[..|queue| - 1]];
        testFiles := testFiles + [test];
        n := n + 1;
      }
    }

    method ClaimConflicts(batch: seq<Test>, i: Worker)
      modifies this`activeConflicts, this`conflictOrder
      ensures View() == Claim(cfg, batch, i, old(View()))
    {
      for n := 0 to |batch|
        invariant unchanged(`testFiles) && unchanged(`sequentialTests) && unchanged(`waitingTests)
        invariant unchanged(`testsInProgress) && unchanged(`workerProcs)
        invariant Claim(cfg, batch[n..], i, View()) == Claim(cfg, batch, i, old(View()))
      {
        var keys := Keys(cfg, batch[n]);
        assert batch[n..][1..] == batch[n + 1..];
        ghost var before := View();
        for m := 0 to |keys|
          invariant unchanged(`testFiles) && unchanged(`sequentialTests) && unchanged(`waitingTests)
          invariant unchanged(`testsInProgress) && unchanged(`workerProcs)
          invariant ClaimKeys(keys[m..], i, View()) == ClaimKeys(keys, i, before)
        {
          assert keys[m..][1..] == keys[m + 1..];
          if keys[m] !in activeConflicts {
            conflictOrder := conflictOrder + [keys[m]];
          }
          activeConflicts := activeConflicts[keys[m] := i];
        }
      }
    }

    method TakeBatch(size: nat) returns (files: seq<Test>)
      modifies this`testFiles, this`waitingTests
      ensures (View(), files) == Take(cfg, size, old(View()), [])
    {
      files := [];
      while |files| <= size && testFiles != []
        invariant unchanged(`sequentialTests) && unchanged(`activeConflicts) && unchanged(`conflictOrder)
        invariant unchanged(`testsInProgress) && unchanged(`workerProcs)
        invariant Take(cfg, size, View(), files) == Take(cfg, size, old(View()), [])
        decreases |testFiles|
      {
        var file := testFiles[|testFiles| - 1];
        testFiles := testFiles[..|testFiles| - 1];
        var blocked := FirstActive(Keys(cfg, file), activeConflicts);
        if blocked.Some? {
          waitingTests := waitingTests[blocked.value := Queue(waitingTests, blocked.value) + [file]];
        } else {
          files := files + [file];
        }
      }
    }

    method AdmitSequential()
      modifies this`testFiles, this`sequentialTests
      ensures View() == Admit(old(View()))
    {
      if |workerProcs| == 1 && sequentialTests != [] {
        testFiles := testFiles + sequentialTests;
        sequentialTests := [];
      }
    }

    /** The "ready" case: the batch sent to worker i, or nothing when i was terminated. */
    method Dispatch(i: Worker) returns (files: seq<Test>)
      requires i in workerProcs
      modifies this
      ensures (View(), files) == Schedule(cfg, i, old(View()))
    {
      AdmitSequential();
      files := TakeBatch(BatchSize(cfg, |workerProcs|));
      if files != [] {
        ClaimConflicts(files, i);
        testsInProgress := testsInProgress + 1;
      } else {
        workerProcs := workerProcs - {i};
      }
    }

    /** One "tests_finished" or "ready" message of worker i; the former falls through to the latter. */
    method OnMessage(finished: bool, i: Worker) returns (files: seq<Test>)
      requires i in workerProcs
      modifies this
      ensures (View(), files) == Handle(cfg, finished, i, old(View()))
    {
      if finished {
        testsInProgress := testsInProgress - 1;
        ReleaseConflicts(i);
      }
      files := Dispatch(i);
    }
  }

  lemma {:induction false} ReverseLast<T>(s: seq<T>)
    requires s != []
    ensures Reverse(s) == [s[|s| - 1]] + Reverse(s[..|s| - 1])
  {
    if |s| == 1 {
      assert s[1..] == [] && s[..0] == [];
    } else {
      var tail := s[1..];
      ReverseLast(tail);
      assert tail[..|tail| - 1] == s[..|s| - 1][1..];
    }
  }
}
