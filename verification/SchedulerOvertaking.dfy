/**
 * The other direction for ci/run-tests-parallel.php: whenever the keys of two tests are not aligned, some list of
 * tests, number of workers and order of answers makes the later test overtake the earlier one.
 */
module SchedulerOvertaking {
  import opened Wrappers
  import opened Scheduler
  import opened SchedulerRuns
  import opened SchedulerOrder
  import opened SchedulerPairs

  // ----- taking tests one by one

  lemma TakeFree(cfg: Config, size: nat, s: State, batch: seq<Test>, rest: seq<Test>, file: Test)
    requires s.files == rest + [file] && |batch| <= size && First(Keys(cfg, file), s.active.Keys) == None
    ensures Take(cfg, size, s, batch) == Take(cfg, size, s.(files := rest), batch + [file])
  {
    FirstIs(Keys(cfg, file), s.active);
    assert s.files[..|s.files| - 1] == rest;
  }

  lemma TakeBlocked(cfg: Config, size: nat, s: State, batch: seq<Test>, rest: seq<Test>, file: Test, k: Key)
    requires s.files == rest + [file] && |batch| <= size && First(Keys(cfg, file), s.active.Keys) == Some(k)
    ensures Take(cfg, size, s, batch)
         == Take(cfg, size, s.(files := rest, waiting := s.waiting[k := Queue(s.waiting, k) + [file]]), batch)
  {
    FirstIs(Keys(cfg, file), s.active);
    assert s.files[..|s.files| - 1] == rest;
  }

  /** With a batch size of one, two free tests make a batch. */
  lemma TakeTwo(cfg: Config, s: State, rest: seq<Test>, a: Test, b: Test)
    requires s.files == rest + [b] + [a]
    requires First(Keys(cfg, a), s.active.Keys) == None && First(Keys(cfg, b), s.active.Keys) == None
    ensures Take(cfg, 1, s, []) == (s.(files := rest), [a, b])
  {
    TakeFree(cfg, 1, s, [], rest + [b], a);
    TakeFree(cfg, 1, s.(files := rest + [b]), [a], rest, b);
    assert [] + [a] == [a] && [a] + [b] == [a, b];
  }

  // ----- giving back one or two queues

  lemma {:induction false} ReleaseOne(keys: seq<Key>, i: Worker, held: map<Key, Worker>, s: State, q: Key)
    requires forall k | k in OfWorker(keys, i, held) && k in s.waiting :: k == q
    ensures Release(keys, i, held, s).files
         == s.files + if q in OfWorker(keys, i, held) then Reverse(Queue(s.waiting, q)) else []
    decreases |keys|
  {
    if keys != [] {
      assert keys == [keys[0]] + keys[1..];
      var next := ReleaseKey(keys[0], i, held, s);
      ReleaseOne(keys[1..], i, held, next, q);
    }
  }

  lemma {:induction false} ReleaseTwo(keys: seq<Key>, i: Worker, held: map<Key, Worker>, s: State, x: Key, y: Key,
                                      a: Test, b: Test)
    requires forall k | k in keys :: k in held && held[k] == i
    requires x != y && s.waiting == map[x := [a], y := [b]]
    requires First(keys, {x, y}) == Some(x) && y in keys
    ensures Release(keys, i, held, s).files == s.files + [a] + [b]
    decreases |keys|
  {
    assert keys == [keys[0]] + keys[1..];
    var next := ReleaseKey(keys[0], i, held, s);
    assert [a][1..] == [] && [b][1..] == [];
    if keys[0] == x {
      assert next.waiting == map[y := [b]];
      ReleaseOne(keys[1..], i, held, next, y);
    } else {
      assert next.files == s.files && next.waiting == s.waiting;
      ReleaseTwo(keys[1..], i, held, next, x, y, a, b);
    }
  }

  lemma OwnKeys(m: State, i: Worker, mine: set<Key>)
    requires (forall j :: j in m.order <==> j in m.active) && mine <= m.active.Keys
    requires forall j | j in m.active :: m.active[j] == i <==> j in mine
    ensures OfWorker(m.order, i, m.active) == mine
  {
  }

  lemma FinishTables(s: State, i: Worker, mine: set<Key>)
    requires OfWorker(s.order, i, s.active) == mine
    ensures var r := Release(s.order, i, s.active, s);
            && r == s.(files := r.files, order := r.order, active := s.active - mine, waiting := s.waiting - mine)
            && forall j :: j in r.order <==> j in s.order && j !in mine
  {
    ReleaseGivesBack(s.order, i, s.active, s);
  }

  // ----- the first batch

  /** The options under which a batch holds two tests, for a list of `total` tests. */
  function Slow(cfg: Config, total: nat): Config {
    Config(cfg.conflicts, total, true, false)
  }

  lemma KeysSame(c: Config, d: Config)
    requires c.conflicts == d.conflicts
    ensures forall b :: Keys(c, b) == Keys(d, b)
    ensures forall batch :: KeysOf(c, batch) == KeysOf(d, batch)
  {
    forall batch ensures KeysOf(c, batch) == KeysOf(d, batch) {
      assert forall b :: Keys(c, b) == Keys(d, b);
    }
  }

  lemma OneAtATime(cfg: Config, workers: nat)
    requires cfg.valgrind && workers > 0
    ensures BatchSize(cfg, workers) == 1
  {
  }

  /** The master after worker 1 of n has been sent `batch`. */
  function Sent(cfg: Config, batch: seq<Test>, files: seq<Test>, n: nat): State {
    Claim(cfg, batch, 1, State(files, [], map[], [], map[], 0, Workers(n))).(inProgress := 1)
  }

  lemma SentFits(cfg: Config, batch: seq<Test>, files: seq<Test>, n: nat)
    ensures var s := Sent(cfg, batch, files, n);
            && s == State(files, [], s.active, s.order, map[], 1, Workers(n))
            && s.active.Keys == KeysOf(cfg, batch) && (forall k | k in s.active :: s.active[k] == 1)
            && (forall k :: k in s.order <==> k in s.active)
  {
    var was := State(files, [], map[], [], map[], 0, Workers(n));
    var c := Claim(cfg, batch, 1, was);
    ClaimClaims(cfg, batch, 1, was);
    forall k ensures (k in c.active <==> k in KeysOf(cfg, batch)) && (k in c.active ==> c.active[k] == 1)
                  && (k in c.order <==> k in c.active) {
      assert ClaimedAt(was, c, KeysOf(cfg, batch), 1, k);
    }
  }

  lemma {:induction false} ClaimKeysAside(keys: seq<Key>, i: Worker, s: State, files: seq<Test>)
    ensures ClaimKeys(keys, i, s.(files := files)) == ClaimKeys(keys, i, s).(files := files)
    decreases |keys|
  {
    if keys != [] { ClaimKeysAside(keys[1..], i, ClaimKey(keys[0], i, s), files); }
  }

  lemma {:induction false} ClaimAside(cfg: Config, batch: seq<Test>, i: Worker, s: State, files: seq<Test>)
    ensures Claim(cfg, batch, i, s.(files := files)) == Claim(cfg, batch, i, s).(files := files)
    decreases |batch|
  {
    if batch != [] {
      ClaimKeysAside(Keys(cfg, batch[0]), i, s, files);
      ClaimAside(cfg, batch[1..], i, ClaimKeys(Keys(cfg, batch[0]), i, s), files);
    }
  }

  /** What is still pending does not matter for the keys of the first batch. */
  lemma SentAside(cfg: Config, batch: seq<Test>, files: seq<Test>, other: seq<Test>, n: nat)
    ensures Sent(cfg, batch, files, n) == Sent(cfg, batch, other, n).(files := files)
  {
    ClaimAside(cfg, batch, 1, State(other, [], map[], [], map[], 0, Workers(n)), files);
  }

  function FirstOut(cfg: Config, a: Test, b: Test, rest: seq<Test>, n: nat): System {
    System(Sent(cfg, [a, b], rest, n), Workers(n) - {1}, map[1 := [a, b]], multiset{}, [a, b])
  }

  lemma FirstBatch(cfg: Config, a: Test, b: Test, rest: seq<Test>, n: nat)
    requires cfg.valgrind && n >= 1
    ensures var start := Start(rest + [b] + [a], [], Workers(n));
            Enabled(start, Ready(1)) && 1 in start.master.alive
              && Step(cfg, start, Ready(1)) == FirstOut(cfg, a, b, rest, n)
  {
    var start := Start(rest + [b] + [a], [], Workers(n));
    OneAtATime(cfg, n);
    TakeTwo(cfg, start.master, rest, a, b);
    ClaimAside(cfg, [a, b], 1, start.master, rest);
    assert [] + [a, b] == [a, b];
  }

  lemma RunOn(cfg: Config, sys: System, e: Event, events: seq<Event>)
    requires Enabled(sys, e) && e.i in sys.master.alive && IsRun(cfg, Step(cfg, sys, e), events)
    ensures IsRun(cfg, sys, [e] + events)
    ensures Outcome(cfg, sys, [e] + events) == Outcome(cfg, Step(cfg, sys, e), events)
  {
    assert ([e] + events)[1..] == events;
  }

  // ----- two tests that the same others keep back differently

  lemma OfLast(front: seq<Test>, x: Test, y: Test)
    requires x != y && x !in front && y !in front
    ensures Of(front + [x, y], {x, y}) == [x, y] && Of(front + [y, x], {x, y}) == [y, x]
         && Of(front + [y], {x, y}) == [y]
  {
    OfConcat(front, [x, y], {x, y});
    OfConcat(front, [y, x], {x, y});
    OfConcat(front, [y], {x, y});
    OfNone(front, {x, y});
    OfOne(x, {x, y});
    OfOne(y, {x, y});
    assert [x, y][1..] == [y] && [y, x][1..] == [x];
  }

  lemma ReverseFour(a: Test, b: Test, x: Test, y: Test)
    ensures Reverse([a, b, x, y]) == [y, x] + [b] + [a]
  {
    var s := [a, b, x, y];
    assert s[1..] == [b, x, y] && [b, x, y][1..] == [x, y] && [x, y][1..] == [y] && [y][1..] == [];
    assert Reverse([x, y]) == [y, x];
    assert Reverse([b, x, y]) == [y, x] + [b];
  }

  /** a, b, x, y, all different, as a list that valgrind tests one at a time. */
  predicate Quad(cfg: Config, a: Test, b: Test, x: Test, y: Test) {
    && cfg == Slow(cfg, 4) && a != b && a != x && a != y && b != x && b != y && x != y
    && !RunsAlone(cfg, a) && !RunsAlone(cfg, b) && !RunsAlone(cfg, x) && !RunsAlone(cfg, y)
  }

  lemma QuadBegins(cfg: Config, a: Test, b: Test, x: Test, y: Test)
    requires Quad(cfg, a, b, x, y)
    ensures Begins(cfg, [a, b, x, y], [], 2)
  {
  }

  lemma QuadOrders(a: Test, b: Test, x: Test, y: Test)
    requires x != y && x !in [a, b] && y !in [a, b]
    ensures Of([a, b, x, y], {x, y}) == [x, y]
    ensures !(Of([a, b] + [y], {x, y}) <= [x, y]) && !(Of([a, b] + [y, x], {x, y}) <= [x, y])
  {
    assert [a, b, x, y] == [a, b] + [x, y];
    OfLast([a, b], x, y);
    assert [y, x][0] != [x, y][0] && [y][0] != [x, y][0];
  }

  lemma OvertakenIn(cfg: Config, a: Test, b: Test, x: Test, y: Test, events: seq<Event>, log: seq<Test>)
    requires Quad(cfg, a, b, x, y) && IsRun(cfg, Start([y, x] + [b] + [a], [], Workers(2)), events)
    requires log == Outcome(cfg, Start([y, x] + [b] + [a], [], Workers(2)), events).log
    requires log == [a, b] + [y] || log == [a, b] + [y, x]
    ensures !AlwaysInOrder(cfg, x, y)
  {
    var given := [a, b, x, y];
    ReverseFour(a, b, x, y);
    QuadOrders(a, b, x, y);
    QuadBegins(cfg, a, b, x, y);
    assert !KeptIn(Config(cfg.conflicts, 4, true, false), x, y, given, [], 2, events);
  }

  /** a and b run, x is kept back, and y goes out before it. */
  lemma FreeOvertakes(cfg: Config, a: Test, b: Test, x: Test, y: Test, k: Key)
    requires Quad(cfg, a, b, x, y)
    requires First(Keys(cfg, x), KeysOf(cfg, [a, b])) == Some(k) && First(Keys(cfg, y), KeysOf(cfg, [a, b])) == None
    ensures !AlwaysInOrder(cfg, x, y)
  {
    FirstBatch(cfg, a, b, [y, x], 2);
    FreeSecond(cfg, a, b, x, y, k);
    TwoEvents(cfg, Start([y, x] + [b] + [a], [], Workers(2)), Ready(1), Ready(2));
    OvertakenIn(cfg, a, b, x, y, [Ready(1), Ready(2)], [a, b] + [y]);
  }

  lemma FreeSecond(cfg: Config, a: Test, b: Test, x: Test, y: Test, k: Key)
    requires cfg.valgrind
    requires First(Keys(cfg, x), KeysOf(cfg, [a, b])) == Some(k) && First(Keys(cfg, y), KeysOf(cfg, [a, b])) == None
    ensures var one := FirstOut(cfg, a, b, [y, x], 2);
            && Enabled(one, Ready(2)) && 2 in one.master.alive
            && Step(cfg, one, Ready(2)).log == [a, b] + [y]
  {
    var s := Sent(cfg, [a, b], [y, x], 2);
    SentFits(cfg, [a, b], [y, x], 2);
    OneAtATime(cfg, 2);
    assert s.files == [y] + [x] && [y] == [] + [y];
    TakeBlocked(cfg, 1, s, [], [y], x, k);
    TakeFree(cfg, 1, s.(files := [y], waiting := map[k := [] + [x]]), [], [], y);
    assert [] + [y] == [y] && Take(cfg, 1, s, []).1 == [y];
  }

  // ----- both are kept back, at different keys: worker 1 gives back the queues in an order of its own

  /** x waits for k and y for j; worker 2 is gone. */
  function BothWait(cfg: Config, a: Test, b: Test, x: Test, k: Key, y: Test, j: Key): System {
    System(Sent(cfg, [a, b], [], 2).(waiting := map[k := [x], j := [y]], alive := {1}), {}, map[1 := [a, b]],
           multiset{}, [a, b])
  }

  lemma BlockedSchedule(cfg: Config, s: State, x: Test, k: Key, y: Test, j: Key)
    requires cfg.valgrind && k != j && s.files == [y, x] && s.sequential == [] && s.waiting == map[]
          && s.alive == Workers(2)
    requires First(Keys(cfg, x), s.active.Keys) == Some(k) && First(Keys(cfg, y), s.active.Keys) == Some(j)
    ensures Schedule(cfg, 2, s) == (s.(files := [], waiting := map[k := [x], j := [y]], alive := {1}), [])
  {
    OneAtATime(cfg, 2);
    assert s.files == [y] + [x] && [y] == [] + [y];
    TakeBlocked(cfg, 1, s, [], [y], x, k);
    TakeBlocked(cfg, 1, s.(files := [y], waiting := map[k := [] + [x]]), [], [], y, j);
    assert [] + [x] == [x] && [] + [y] == [y];
    assert Workers(2) - {2} == {1};
  }

  lemma BlockedSecond(cfg: Config, a: Test, b: Test, x: Test, k: Key, y: Test, j: Key)
    requires cfg.valgrind && k != j
    requires First(Keys(cfg, x), KeysOf(cfg, [a, b])) == Some(k) && First(Keys(cfg, y), KeysOf(cfg, [a, b])) == Some(j)
    ensures var one := FirstOut(cfg, a, b, [y, x], 2);
            && Enabled(one, Ready(2)) && 2 in one.master.alive
            && Step(cfg, one, Ready(2)) == BothWait(cfg, a, b, x, k, y, j)
  {
    SentFits(cfg, [a, b], [y, x], 2);
    SentAside(cfg, [a, b], [], [y, x], 2);
    BlockedSchedule(cfg, Sent(cfg, [a, b], [y, x], 2), x, k, y, j);
    assert Workers(2) - {1} - {2} == {};
    assert [a, b] + [] == [a, b];
  }

  lemma BothBack(cfg: Config, m: State, x: Test, k: Key, y: Test, j: Key)
    requires cfg.valgrind && k != j && m == State([], [], m.active, m.order, map[k := [x], j := [y]], 1, {1})
    requires First(m.order, {k, j}) == Some(k) && j in m.active
    requires (forall q | q in m.active :: m.active[q] == 1) && forall q :: q in m.order <==> q in m.active
    ensures Schedule(cfg, 1, Finish(1, m)).1 == [y, x]
  {
    var s := m.(inProgress := 0);
    ReleaseTwo(m.order, 1, m.active, s, k, j, x, y);
    OwnKeys(m, 1, m.active.Keys);
    FinishTables(s, 1, m.active.Keys);
    OneAtATime(cfg, 1);
    assert m.active - m.active.Keys == map[];
    assert [] + [x] + [y] == Finish(1, m).files;
    TakeTwo(cfg, Finish(1, m), [], y, x);
  }

  lemma BothReturn(cfg: Config, a: Test, b: Test, x: Test, k: Key, y: Test, j: Key)
    requires cfg.valgrind && k != j && First(Sent(cfg, [a, b], [], 2).order, {k, j}) == Some(k)
    requires k in KeysOf(cfg, [a, b]) && j in KeysOf(cfg, [a, b])
    ensures var two := BothWait(cfg, a, b, x, k, y, j);
            && Enabled(two, TestsFinished(1)) && 1 in two.master.alive
            && Step(cfg, two, TestsFinished(1)).log == [a, b] + [y, x]
  {
    SentFits(cfg, [a, b], [], 2);
    BothBack(cfg, BothWait(cfg, a, b, x, k, y, j).master, x, k, y, j);
  }

  lemma CrossOvertakes(cfg: Config, a: Test, b: Test, x: Test, k: Key, y: Test, j: Key)
    requires Quad(cfg, a, b, x, y) && k != j && First(Sent(cfg, [a, b], [], 2).order, {k, j}) == Some(k)
    requires First(Keys(cfg, x), KeysOf(cfg, [a, b])) == Some(k) && First(Keys(cfg, y), KeysOf(cfg, [a, b])) == Some(j)
    ensures !AlwaysInOrder(cfg, x, y)
  {
    var start, one := Start([y, x] + [b] + [a], [], Workers(2)), FirstOut(cfg, a, b, [y, x], 2);
    FirstBatch(cfg, a, b, [y, x], 2);
    BlockedSecond(cfg, a, b, x, k, y, j);
    BothReturn(cfg, a, b, x, k, y, j);
    TwoEvents(cfg, one, Ready(2), TestsFinished(1));
    RunOn(cfg, start, Ready(1), [Ready(2), TestsFinished(1)]);
    OvertakenIn(cfg, a, b, x, y, [Ready(1)] + [Ready(2), TestsFinished(1)], [a, b] + [y, x]);
  }

  lemma AlwaysEither(cfg: Config, t: Test, u: Test)
    ensures AlwaysInOrder(cfg, t, u) ==> AlwaysInOrder(cfg, u, t)
  {
    assert {t, u} == {u, t};
    if AlwaysInOrder(cfg, t, u) {
      forall total, valgrind, shuffle, given, sequential, n, events
        ensures KeptIn(Config(cfg.conflicts, total, valgrind, shuffle), u, t, given, sequential, n, events)
      {
        assert KeptIn(Config(cfg.conflicts, total, valgrind, shuffle), t, u, given, sequential, n, events);
      }
    }
  }

  /** Two running tests that keep back t and u at different keys, or only one of them, let either overtake the other. */
  lemma SplitOvertakes(cfg: Config, a: Test, b: Test, t: Test, u: Test)
    requires Quad(cfg, a, b, t, u) && !SameFirst(cfg, t, u, KeysOf(cfg, [a, b]))
    ensures !AlwaysInOrder(cfg, t, u)
  {
    var keys := KeysOf(cfg, [a, b]);
    AlwaysEither(cfg, t, u);
    match (First(Keys(cfg, t), keys), First(Keys(cfg, u), keys))
    case (Some(k), None) => FreeOvertakes(cfg, a, b, t, u, k);
    case (None, Some(j)) => FreeOvertakes(cfg, a, b, u, t, j);
    case (Some(k), Some(j)) =>
      SentFits(cfg, [a, b], [], 2);
      if First(Sent(cfg, [a, b], [], 2).order, {k, j}) == Some(k) {
        CrossOvertakes(cfg, a, b, t, k, u, j);
      } else {
        assert {k, j} == {j, k};
        CrossOvertakes(cfg, a, b, u, j, t, k);
      }
  }

  // ----- two others that share no key: x waits for the first, y for the second, and x comes back behind y

  /** b, p, x, c, r, y as such a list; p and r have no keys and only fill up the batches of b and c. */
  predicate Six(cfg: Config, b: Test, p: Test, x: Test, c: Test, r: Test, y: Test) {
    && cfg == Slow(cfg, 6) && Distinct([b, p, x, c, r, y]) && Keys(cfg, p) == [] && Keys(cfg, r) == []
    && !RunsAlone(cfg, b) && !RunsAlone(cfg, c) && !RunsAlone(cfg, x) && !RunsAlone(cfg, y)
  }

  /** The master after worker 1 was sent b and worker 2 c, while x waits for k. */
  function SecondSent(cfg: Config, b: Test, p: Test, c: Test, r: Test, files: seq<Test>,
                      waiting: map<Key, seq<Test>>): State {
    Claim(cfg, [c, r], 2, Sent(cfg, [b, p], files, 3).(waiting := waiting)).(inProgress := 2)
  }

  lemma SecondFits(cfg: Config, b: Test, p: Test, c: Test, r: Test, files: seq<Test>, waiting: map<Key, seq<Test>>)
    requires !Shares(cfg, b, c) && Keys(cfg, p) == [] && Keys(cfg, r) == []
    ensures var m := SecondSent(cfg, b, p, c, r, files, waiting);
            && m == State(files, [], m.active, m.order, waiting, 2, Workers(3))
            && m.active.Keys == KeysOf(cfg, [b, c])
            && (forall k | k in Keys(cfg, b) :: m.active[k] == 1) && (forall k | k in Keys(cfg, c) :: m.active[k] == 2)
            && (forall k :: k in m.order <==> k in m.active)
  {
    var was := Sent(cfg, [b, p], files, 3).(waiting := waiting);
    var claimed := Claim(cfg, [c, r], 2, was);
    SentFits(cfg, [b, p], files, 3);
    ClaimClaims(cfg, [c, r], 2, was);
    forall k ensures (k in claimed.active <==> k in Keys(cfg, b) || k in Keys(cfg, c))
                  && (k in Keys(cfg, b) ==> claimed.active[k] == 1) && (k in Keys(cfg, c) ==> claimed.active[k] == 2)
                  && (k in claimed.order <==> k in claimed.active) {
      assert ClaimedAt(was, claimed, KeysOf(cfg, [c, r]), 2, k);
      assert k in Keys(cfg, b) ==> k !in Keys(cfg, c);
      assert k in KeysOf(cfg, [c, r]) <==> k in Keys(cfg, c);
      assert k in KeysOf(cfg, [b, p]) <==> k in Keys(cfg, b);
    }
  }

  function SecondOut(cfg: Config, b: Test, p: Test, x: Test, k: Key, c: Test, r: Test, y: Test): System {
    System(SecondSent(cfg, b, p, c, r, [y], map[k := [x]]), {3}, map[1 := [b, p], 2 := [c, r]], multiset{},
           [b, p] + [c, r])
  }

  lemma TakeThree(cfg: Config, s: State, rest: seq<Test>, x: Test, k: Key, c: Test, r: Test)
    requires s.files == rest + [r] + [c] + [x] && s.waiting == map[] && First(Keys(cfg, x), s.active.Keys) == Some(k)
    requires First(Keys(cfg, c), s.active.Keys) == None && First(Keys(cfg, r), s.active.Keys) == None
    ensures Take(cfg, 1, s, []) == (s.(files := rest, waiting := map[k := [x]]), [c, r])
  {
    TakeBlocked(cfg, 1, s, [], rest + [r] + [c], x, k);
    assert [] + [x] == [x];
    TakeTwo(cfg, s.(files := rest + [r] + [c], waiting := map[k := [x]]), rest, c, r);
  }

  lemma FreeBeside(cfg: Config, b: Test, p: Test, c: Test)
    requires !Shares(cfg, b, c) && Keys(cfg, p) == []
    ensures First(Keys(cfg, c), KeysOf(cfg, [b, p])) == None
  {
    forall k | k in Keys(cfg, c) ensures k !in KeysOf(cfg, [b, p]) {}
  }

  lemma SecondTake(cfg: Config, b: Test, p: Test, x: Test, k: Key, c: Test, r: Test, y: Test)
    requires !Shares(cfg, b, c) && Keys(cfg, p) == [] && Keys(cfg, r) == []
    requires First(Keys(cfg, x), KeysOf(cfg, [b, p])) == Some(k)
    ensures Take(cfg, 1, Sent(cfg, [b, p], [y, r, c, x], 3), [])
         == (Sent(cfg, [b, p], [y], 3).(waiting := map[k := [x]]), [c, r])
  {
    var s := Sent(cfg, [b, p], [y, r, c, x], 3);
    SentFits(cfg, [b, p], [y, r, c, x], 3);
    SentAside(cfg, [b, p], [y], [y, r, c, x], 3);
    FreeBeside(cfg, b, p, c);
    TakeThree(cfg, s, [y], x, k, c, r);
  }

  lemma SecondBatch(cfg: Config, b: Test, p: Test, x: Test, k: Key, c: Test, r: Test, y: Test)
    requires cfg.valgrind && !Shares(cfg, b, c) && Keys(cfg, p) == [] && Keys(cfg, r) == []
    requires First(Keys(cfg, x), KeysOf(cfg, [b, p])) == Some(k)
    ensures var one := FirstOut(cfg, b, p, [y, r, c, x], 3);
            && Enabled(one, Ready(2)) && 2 in one.master.alive
            && Step(cfg, one, Ready(2)) == SecondOut(cfg, b, p, x, k, c, r, y)
  {
    var one := FirstOut(cfg, b, p, [y, r, c, x], 3);
    SecondSchedule(cfg, b, p, x, k, c, r, y);
    SentFits(cfg, [b, p], [y, r, c, x], 3);
    assert Workers(3) - {1} - {2} == {3};
    assert map[1 := [b, p]][2 := [c, r]] == map[1 := [b, p], 2 := [c, r]];
  }

  lemma SecondSchedule(cfg: Config, b: Test, p: Test, x: Test, k: Key, c: Test, r: Test, y: Test)
    requires cfg.valgrind && !Shares(cfg, b, c) && Keys(cfg, p) == [] && Keys(cfg, r) == []
    requires First(Keys(cfg, x), KeysOf(cfg, [b, p])) == Some(k)
    ensures 2 in Sent(cfg, [b, p], [y, r, c, x], 3).alive
    ensures Schedule(cfg, 2, Sent(cfg, [b, p], [y, r, c, x], 3))
         == (SecondSent(cfg, b, p, c, r, [y], map[k := [x]]), [c, r])
  {
    SecondTake(cfg, b, p, x, k, c, r, y);
    SentFits(cfg, [b, p], [y, r, c, x], 3);
    SentFits(cfg, [b, p], [y], 3);
    OneAtATime(cfg, 3);
  }

  function AllWait(cfg: Config, b: Test, p: Test, x: Test, k: Key, c: Test, r: Test, y: Test, z: Key): System {
    System(SecondSent(cfg, b, p, c, r, [y], map[k := [x]])
             .(files := [], waiting := map[k := [x], z := [y]], alive := {1, 2}),
           {}, map[1 := [b, p], 2 := [c, r]], multiset{}, [b, p] + [c, r])
  }

  lemma LeaveSchedule(cfg: Config, s: State, y: Test, z: Key, k: Key, x: Test)
    requires cfg.valgrind && s == State([y], [], s.active, s.order, map[k := [x]], 2, Workers(3)) && k != z
    requires First(Keys(cfg, y), s.active.Keys) == Some(z)
    ensures Schedule(cfg, 3, s) == (s.(files := [], waiting := map[k := [x], z := [y]], alive := {1, 2}), [])
  {
    OneAtATime(cfg, 3);
    assert s.files == [] + [y] && [] + [y] == [y];
    TakeBlocked(cfg, 1, s, [], [], y, z);
    assert Workers(3) - {3} == {1, 2};
  }

  lemma ThirdLeaves(cfg: Config, b: Test, p: Test, x: Test, k: Key, c: Test, r: Test, y: Test, z: Key)
    requires cfg.valgrind && !Shares(cfg, b, c) && Keys(cfg, p) == [] && Keys(cfg, r) == []
    requires k != z && First(Keys(cfg, y), KeysOf(cfg, [b, c])) == Some(z)
    ensures var two := SecondOut(cfg, b, p, x, k, c, r, y);
            && Enabled(two, Ready(3)) && 3 in two.master.alive
            && Step(cfg, two, Ready(3)) == AllWait(cfg, b, p, x, k, c, r, y, z)
  {
    SecondFits(cfg, b, p, c, r, [y], map[k := [x]]);
    LeaveSchedule(cfg, SecondSent(cfg, b, p, c, r, [y], map[k := [x]]), y, z, k, x);
    assert {3} - {3} == {};
    assert [b, p] + [c, r] + [] == [b, p] + [c, r];
  }

  /** The first worker is done: x is pending again, but now it queues up behind y. */
  function Behind(cfg: Config, b: Test, p: Test, x: Test, k: Key, c: Test, r: Test, y: Test, z: Key): System {
    System(Finish(1, AllWait(cfg, b, p, x, k, c, r, y, z).master)
             .(files := [], waiting := map[z := [y, x]], alive := {2}),
           {}, map[2 := [c, r]], multiset([b, p]), [b, p] + [c, r])
  }

  lemma FinishOne(m: State, i: Worker, k: Key, x: Test, z: Key, y: Test, mine: set<Key>)
    requires m.files == [] && m.waiting == map[k := [x], z := [y]] && k in mine && z !in mine
    requires (forall j :: j in m.order <==> j in m.active) && mine <= m.active.Keys
    requires forall j | j in m.active :: m.active[j] == i <==> j in mine
    ensures var r := Finish(i, m);
            && r == m.(files := [x], active := m.active - mine, waiting := map[z := [y]], order := r.order,
                       inProgress := m.inProgress - 1)
            && forall j :: j in r.order <==> j in r.active
  {
    var s := m.(inProgress := m.inProgress - 1);
    OwnKeys(m, i, mine);
    FinishFiles(s, i, k, mine);
    assert Reverse([x]) == [x] by { assert [x][1..] == []; }
    FinishTables(s, i, mine);
    assert m.waiting - mine == map[z := [y]];
  }

  lemma FinishFiles(s: State, i: Worker, k: Key, mine: set<Key>)
    requires OfWorker(s.order, i, s.active) == mine && s.files == [] && k in mine && k in s.waiting
    requires forall j | j in mine && j in s.waiting :: j == k
    ensures Release(s.order, i, s.active, s).files == Reverse(s.waiting[k])
  {
    ReleaseOne(s.order, i, s.active, s, k);
  }

  lemma FirstReturns(cfg: Config, b: Test, p: Test, x: Test, k: Key, c: Test, r: Test, y: Test, z: Key)
    requires !Shares(cfg, b, c) && Keys(cfg, p) == [] && Keys(cfg, r) == [] && k in Keys(cfg, b) && z in Keys(cfg, c)
    ensures var m := Finish(1, AllWait(cfg, b, p, x, k, c, r, y, z).master);
            && m == State([x], [], m.active, m.order, map[z := [y]], 1, {1, 2})
            && m.active.Keys == KeysOf(cfg, [c]) && (forall j | j in m.active :: m.active[j] == 2)
            && (forall j :: j in m.order <==> j in m.active)
  {
    SecondFits(cfg, b, p, c, r, [y], map[k := [x]]);
    OneHalf(cfg, AllWait(cfg, b, p, x, k, c, r, y, z).master, b, x, k, c, y, z);
  }

  lemma OneHalf(cfg: Config, m: State, b: Test, x: Test, k: Key, c: Test, y: Test, z: Key)
    requires !Shares(cfg, b, c) && k in Keys(cfg, b) && z in Keys(cfg, c)
    requires m == State([], [], m.active, m.order, map[k := [x], z := [y]], 2, {1, 2})
    requires m.active.Keys == KeysOf(cfg, [b, c]) && forall j :: j in m.order <==> j in m.active
    requires (forall j | j in Keys(cfg, b) :: m.active[j] == 1) && (forall j | j in Keys(cfg, c) :: m.active[j] == 2)
    ensures var r := Finish(1, m);
            && r == State([x], [], r.active, r.order, map[z := [y]], 1, {1, 2})
            && r.active.Keys == KeysOf(cfg, [c]) && (forall j | j in r.active :: r.active[j] == 2)
            && (forall j :: j in r.order <==> j in r.active)
  {
    var mine := KeysOf(cfg, [b]);
    forall j | j in m.active
      ensures (m.active[j] == 1 <==> j in mine) && (m.active[j] == 2 <==> j in KeysOf(cfg, [c]))
    {
      assert j in Keys(cfg, b) || j in Keys(cfg, c);
      assert j in Keys(cfg, b) ==> j !in Keys(cfg, c);
    }
    assert z !in mine;
    FinishOne(m, 1, k, x, z, y, mine);
  }

  lemma QueueUp(cfg: Config, m: State, x: Test, z: Key, y: Test)
    requires cfg.valgrind && m == State([x], [], m.active, m.order, map[z := [y]], 1, {1, 2})
    requires First(Keys(cfg, x), m.active.Keys) == Some(z)
    ensures Schedule(cfg, 1, m) == (m.(files := [], waiting := map[z := [y, x]], alive := {2}), [])
  {
    OneAtATime(cfg, |{1, 2}|);
    assert m.files == [] + [x];
    TakeBlocked(cfg, 1, m, [], [], x, z);
    assert [y] + [x] == [y, x];
    assert map[z := [y]][z := [y, x]] == map[z := [y, x]];
    assert {1, 2} - {1} == {2};
  }

  lemma QueueUpStep(cfg: Config, sys: System, m: State, x: Test, z: Key, y: Test, first: seq<Test>, second: seq<Test>)
    requires cfg.valgrind && 1 in sys.master.alive && m == Finish(1, sys.master)
    requires m == State([x], [], m.active, m.order, map[z := [y]], 1, {1, 2})
    requires First(Keys(cfg, x), m.active.Keys) == Some(z) && sys.running == map[1 := first, 2 := second]
    ensures Enabled(sys, TestsFinished(1))
    ensures Step(cfg, sys, TestsFinished(1))
         == System(m.(files := [], waiting := map[z := [y, x]], alive := {2}), sys.starting, map[2 := second],
                   sys.done + multiset(first), sys.log)
  {
    QueueUp(cfg, m, x, z, y);
    assert sys.running - {1} == map[2 := second];
    assert sys.log + [] == sys.log;
  }

  lemma QueuesBehind(cfg: Config, b: Test, p: Test, x: Test, k: Key, c: Test, r: Test, y: Test, z: Key)
    requires cfg.valgrind && !Shares(cfg, b, c) && Keys(cfg, p) == [] && Keys(cfg, r) == []
    requires k in Keys(cfg, b) && First(Keys(cfg, x), KeysOf(cfg, [c])) == Some(z)
    ensures var three := AllWait(cfg, b, p, x, k, c, r, y, z);
            && Enabled(three, TestsFinished(1)) && 1 in three.master.alive
            && Step(cfg, three, TestsFinished(1)) == Behind(cfg, b, p, x, k, c, r, y, z)
  {
    var three := AllWait(cfg, b, p, x, k, c, r, y, z);
    FirstReturns(cfg, b, p, x, k, c, r, y, z);
    QueueUpStep(cfg, three, Finish(1, three.master), x, z, y, [b, p], [c, r]);
    assert multiset{} + multiset([b, p]) == multiset([b, p]);
  }

  lemma LastTwo(cfg: Config, m: State, x: Test, z: Key, y: Test)
    requires cfg.valgrind && m == State([], [], m.active, m.order, map[z := [y, x]], 1, {2})
    requires z in m.active && (forall j | j in m.active :: m.active[j] == 2)
    requires forall j :: j in m.order <==> j in m.active
    ensures Schedule(cfg, 2, Finish(2, m)).1 == [y, x]
  {
    var s, mine := m.(inProgress := 0), m.active.Keys;
    OwnKeys(m, 2, mine);
    FinishFiles(s, 2, z, mine);
    FinishTables(s, 2, mine);
    assert Reverse([y, x]) == [] + [x] + [y] by { assert [y, x][1..] == [x] && [x][1..] == []; }
    assert m.active - mine == map[];
    OneAtATime(cfg, 1);
    TakeTwo(cfg, Finish(2, m), [], y, x);
  }

  lemma ComesLast(cfg: Config, b: Test, p: Test, x: Test, k: Key, c: Test, r: Test, y: Test, z: Key)
    requires cfg.valgrind && !Shares(cfg, b, c) && Keys(cfg, p) == [] && Keys(cfg, r) == []
    requires k in Keys(cfg, b) && z in Keys(cfg, c)
    ensures var four := Behind(cfg, b, p, x, k, c, r, y, z);
            && Enabled(four, TestsFinished(2)) && 2 in four.master.alive
            && Step(cfg, four, TestsFinished(2)).log == [b, p] + [c, r] + [y, x]
  {
    FirstReturns(cfg, b, p, x, k, c, r, y, z);
    LastTwo(cfg, Behind(cfg, b, p, x, k, c, r, y, z).master, x, z, y);
  }

  lemma ReverseSix(b: Test, p: Test, x: Test, c: Test, r: Test, y: Test)
    ensures Reverse([b, p, x, c, r, y]) == [y, r, c, x] + [p] + [b]
  {
    ReverseFour(x, c, r, y);
    assert [b, p, x, c, r, y][1..] == [p, x, c, r, y] && [p, x, c, r, y][1..] == [x, c, r, y];
    assert Reverse([p, x, c, r, y]) == [y, r, c, x] + [p];
  }

  lemma SixGiven(b: Test, p: Test, x: Test, c: Test, r: Test, y: Test)
    requires x != y && x !in [b, p] && y !in [b, p] && x !in [c, r] && y !in [c, r]
    ensures Of([b, p, x, c, r, y], {x, y}) == [x, y]
  {
    var q := {x, y};
    assert [b, p, x, c, r, y] == [b, p] + ([x] + ([c, r] + [y]));
    OfConcat([b, p], [x] + ([c, r] + [y]), q);
    OfConcat([x], [c, r] + [y], q);
    OfConcat([c, r], [y], q);
    OfNone([b, p], q);
    OfNone([c, r], q);
    OfOne(x, q);
    OfOne(y, q);
  }

  lemma SixLogged(b: Test, p: Test, x: Test, c: Test, r: Test, y: Test)
    requires x != y && x !in [b, p] && y !in [b, p] && x !in [c, r] && y !in [c, r]
    ensures !(Of([b, p] + [c, r] + [y, x], {x, y}) <= [x, y])
  {
    OfLast([b, p] + [c, r], x, y);
    assert [y, x][0] != [x, y][0];
  }

  lemma SixBegins(cfg: Config, b: Test, p: Test, x: Test, c: Test, r: Test, y: Test)
    requires Six(cfg, b, p, x, c, r, y)
    ensures Begins(cfg, [b, p, x, c, r, y], [], 3)
  {
  }

  lemma SixApart(b: Test, p: Test, x: Test, c: Test, r: Test, y: Test)
    requires Distinct([b, p, x, c, r, y])
    ensures x != y && x !in [b, p] && y !in [b, p] && x !in [c, r] && y !in [c, r]
  {
    var given := [b, p, x, c, r, y];
    assert given[0] != given[2] && given[0] != given[5] && given[1] != given[2] && given[1] != given[5];
    assert given[2] != given[3] && given[2] != given[4] && given[2] != given[5];
    assert given[3] != given[5] && given[4] != given[5];
  }

  lemma SixRun(cfg: Config, b: Test, p: Test, x: Test, k: Key, c: Test, r: Test, y: Test, z: Key)
    returns (events: seq<Event>)
    requires cfg.valgrind && !Shares(cfg, b, c) && Keys(cfg, p) == [] && Keys(cfg, r) == []
    requires First(Keys(cfg, x), KeysOf(cfg, [b, p])) == Some(k) && First(Keys(cfg, x), KeysOf(cfg, [c])) == Some(z)
    requires First(Keys(cfg, y), KeysOf(cfg, [b, c])) == Some(z)
    ensures var start := Start([y, r, c, x] + [p] + [b], [], Workers(3));
            IsRun(cfg, start, events) && Outcome(cfg, start, events).log == [b, p] + [c, r] + [y, x]
  {
    var start, one := Start([y, r, c, x] + [p] + [b], [], Workers(3)), FirstOut(cfg, b, p, [y, r, c, x], 3);
    var two, three := SecondOut(cfg, b, p, x, k, c, r, y), AllWait(cfg, b, p, x, k, c, r, y, z);
    assert k in Keys(cfg, b) && z in Keys(cfg, c);
    FirstBatch(cfg, b, p, [y, r, c, x], 3);
    SecondBatch(cfg, b, p, x, k, c, r, y);
    ThirdLeaves(cfg, b, p, x, k, c, r, y, z);
    QueuesBehind(cfg, b, p, x, k, c, r, y, z);
    ComesLast(cfg, b, p, x, k, c, r, y, z);
    TwoEvents(cfg, three, TestsFinished(1), TestsFinished(2));
    events := [TestsFinished(1), TestsFinished(2)];
    RunOn(cfg, two, Ready(3), events);
    events := [Ready(3)] + events;
    RunOn(cfg, one, Ready(2), events);
    events := [Ready(2)] + events;
    RunOn(cfg, start, Ready(1), events);
    events := [Ready(1)] + events;
  }

  lemma OvertakenLast(cfg: Config, b: Test, p: Test, x: Test, c: Test, r: Test, y: Test, events: seq<Event>)
    requires Six(cfg, b, p, x, c, r, y) && IsRun(cfg, Start([y, r, c, x] + [p] + [b], [], Workers(3)), events)
    requires Outcome(cfg, Start([y, r, c, x] + [p] + [b], [], Workers(3)), events).log == [b, p] + [c, r] + [y, x]
    ensures !AlwaysInOrder(cfg, x, y)
  {
    var given := [b, p, x, c, r, y];
    SixApart(b, p, x, c, r, y);
    SixGiven(b, p, x, c, r, y);
    SixLogged(b, p, x, c, r, y);
    SixBegins(cfg, b, p, x, c, r, y);
    ReverseSix(b, p, x, c, r, y);
    assert !KeptIn(Config(cfg.conflicts, 6, true, false), x, y, given, [], 3, events);
  }

  /** b and c share no key and run side by side; x waits for b, y for c, and x comes back too late. */
  lemma ApartOvertakes(cfg: Config, b: Test, p: Test, x: Test, c: Test, r: Test, y: Test)
    requires Six(cfg, b, p, x, c, r, y) && !Shares(cfg, b, c) && Shares(cfg, b, x)
    requires SameFirst(cfg, x, y, KeysOf(cfg, [b, c])) && First(Keys(cfg, x), KeysOf(cfg, [b, c])).Some?
    requires First(Keys(cfg, x), KeysOf(cfg, [b, c])).value in Keys(cfg, c)
    ensures !AlwaysInOrder(cfg, x, y)
  {
    var z := First(Keys(cfg, x), KeysOf(cfg, [b, c])).value;
    FirstWithin(Keys(cfg, x), KeysOf(cfg, [b, c]), KeysOf(cfg, [c]));
    var k := SharedFirst(cfg, b, p, x);
    var events := SixRun(cfg, b, p, x, k, c, r, y, z);
    OvertakenLast(cfg, b, p, x, c, r, y, events);
  }

  lemma SharedFirst(cfg: Config, b: Test, p: Test, x: Test) returns (k: Key)
    requires Shares(cfg, b, x)
    ensures First(Keys(cfg, x), KeysOf(cfg, [b, p])) == Some(k)
  {
    var j :| j in Keys(cfg, b) && j in Keys(cfg, x);
    assert b in [b, p] && j in KeysOf(cfg, [b, p]);
    k := First(Keys(cfg, x), KeysOf(cfg, [b, p])).value;
  }

  // ----- tests without keys that fill up a batch

  lemma {:induction false} Longest(names: set<Test>) returns (n: nat)
    ensures forall t | t in names :: |t| <= n
  {
    n := 0;
    if names != {} {
      var t :| t in names;
      n := Longest(names - {t});
      n := if |t| > n then |t| else n;
    }
  }

  lemma Pad(cfg: Config, names: set<Test>) returns (p: Test)
    ensures p !in names && Keys(cfg, p) == []
  {
    var n := Longest(names + cfg.conflicts.Keys);
    p := seq(n + 1, _ => 'a');
  }

  // ----- both directions

  lemma SplitGoesWrong(cfg: Config, b: Test, c: Test, t: Test, u: Test)
    requires t != u && !RunsAlone(cfg, t) && !RunsAlone(cfg, u) && b in Others(cfg, t, u) && c in Others(cfg, t, u)
    requires !SameFirst(cfg, t, u, KeysOf(cfg, [b, c]))
    ensures !AlwaysInOrder(cfg, t, u)
  {
    var slow := Slow(cfg, 4);
    var p := Pad(cfg, {b, t, u});
    KeysSame(cfg, slow);
    if b == c {
      assert KeysOf(cfg, [b, p]) == KeysOf(cfg, [b, c]);
      SplitOvertakes(slow, b, p, t, u);
    } else {
      SplitOvertakes(slow, b, c, t, u);
    }
  }

  lemma ApartInTurn(cfg: Config, b: Test, c: Test, t: Test, u: Test)
    requires t != u && !RunsAlone(cfg, t) && !RunsAlone(cfg, u) && b in Others(cfg, t, u) && c in Others(cfg, t, u)
    requires Shares(cfg, b, t) && !Shares(cfg, b, c) && b != c && SameFirst(cfg, t, u, KeysOf(cfg, [b, c]))
    requires First(Keys(cfg, t), KeysOf(cfg, [b, c])).Some?
    requires First(Keys(cfg, t), KeysOf(cfg, [b, c])).value in Keys(cfg, c)
    ensures !AlwaysInOrder(cfg, t, u)
  {
    var slow := Slow(cfg, 6);
    var p := Pad(cfg, {b, c, t, u});
    var r := Pad(cfg, {b, c, t, u, p});
    KeysSame(cfg, slow);
    SixOf(slow, b, p, t, c, r, u);
    ApartOvertakes(slow, b, p, t, c, r, u);
  }

  lemma SixOf(cfg: Config, b: Test, p: Test, x: Test, c: Test, r: Test, y: Test)
    requires cfg == Slow(cfg, 6) && Keys(cfg, p) == [] && Keys(cfg, r) == []
    requires !RunsAlone(cfg, b) && !RunsAlone(cfg, c) && !RunsAlone(cfg, x) && !RunsAlone(cfg, y)
    requires p !in {b, x, c, y} && r !in {b, x, c, y, p} && b !in {x, c, y} && x !in {c, y} && c != y
    ensures Six(cfg, b, p, x, c, r, y)
  {
  }

  lemma ApartGoesWrong(cfg: Config, b: Test, c: Test, t: Test, u: Test)
    requires t != u && !RunsAlone(cfg, t) && !RunsAlone(cfg, u) && b in Others(cfg, t, u) && c in Others(cfg, t, u)
    requires Shares(cfg, b, t) && Shares(cfg, c, t) && !Shares(cfg, b, c) && SameFirst(cfg, t, u, KeysOf(cfg, [b, c]))
    ensures !AlwaysInOrder(cfg, t, u)
  {
    var k := SharedFirst(cfg, b, c, t);
    assert b != c by { assert exists j :: j in Keys(cfg, b) && j in Keys(cfg, t); }
    if k in Keys(cfg, c) {
      ApartInTurn(cfg, b, c, t, u);
    } else {
      assert KeysOf(cfg, [c, b]) == KeysOf(cfg, [b, c]);
      assert !Shares(cfg, c, b);
      ApartInTurn(cfg, c, b, t, u);
    }
  }

  /**
   * Two tests are handed out in the order given, in every run over every list of tests with these conflicts,
   * exactly when their keys are aligned.
   */
  lemma InOrderIff(cfg: Config, t: Test, u: Test)
    requires t != u && !RunsAlone(cfg, t) && !RunsAlone(cfg, u)
    ensures AlwaysInOrder(cfg, t, u) <==> Aligned(cfg, t, u)
  {
    if Aligned(cfg, t, u) {
      forall total, valgrind, shuffle, given, sequential, n, events
        ensures KeptIn(Config(cfg.conflicts, total, valgrind, shuffle), t, u, given, sequential, n, events)
      {
        var c := Config(cfg.conflicts, total, valgrind, shuffle);
        AlignedSame(cfg, c, t, u);
        AlignedKeeps(c, t, u, given, sequential, n, events);
      }
    } else if b, c :| b in Others(cfg, t, u) && c in Others(cfg, t, u) && !SameFirst(cfg, t, u, KeysOf(cfg, [b, c])) {
      SplitGoesWrong(cfg, b, c, t, u);
    } else {
      var b, c :| b in Others(cfg, t, u) && c in Others(cfg, t, u)
               && Shares(cfg, b, t) && Shares(cfg, c, t) && !Shares(cfg, b, c);
      ApartGoesWrong(cfg, b, c, t, u);
    }
  }

  lemma AlignedSame(c: Config, d: Config, t: Test, u: Test)
    requires c.conflicts == d.conflicts && Aligned(c, t, u)
    ensures Aligned(d, t, u)
  {
    KeysSame(c, d);
    assert Others(c, t, u) == Others(d, t, u);
    forall b, e | b in Others(d, t, u) && e in Others(d, t, u) ensures SameFirst(d, t, u, KeysOf(d, [b, e])) {
      assert SameFirst(c, t, u, KeysOf(c, [b, e]));
    }
    forall b, e | b in Others(d, t, u) && e in Others(d, t, u) && Shares(d, b, t) && Shares(d, e, t)
      ensures Shares(d, b, e)
    {
      assert Shares(c, b, t) && Shares(c, e, t);
      assert Shares(c, b, e);
    }
  }

  /** Tests that carry one list of keys, which no other test shares in part, are aligned. */
  lemma GroupAligned(cfg: Config, keys: seq<Key>, t: Test, u: Test)
    requires Group(cfg, keys) && Keys(cfg, t) == keys && Keys(cfg, u) == keys
    ensures Aligned(cfg, t, u)
  {
    forall b, c | b in Others(cfg, t, u) && c in Others(cfg, t, u) && Shares(cfg, b, t) && Shares(cfg, c, t)
      ensures Shares(cfg, b, c)
    {
      assert Keys(cfg, b) == keys && Keys(cfg, c) == keys;
      assert keys[0] in keys;
    }
  }
}
