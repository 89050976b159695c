/**
 * The order in which ci/run-tests-parallel.php hands out tests with a common conflict key: kept for a key
 * list whose tests carry exactly that list, as a CONFLICTS file of a directory gives it.
 */
module SchedulerOrder {
  import opened Wrappers
  import opened Scheduler
  import opened SchedulerRuns

  /** The tests of s that are in p, in order. */
  function Of(s: seq<Test>, p: set<Test>): seq<Test> {
    if s == [] then [] else (if s[0] in p then [s[0]] else []) + Of(s[1..], p)
  }

  /** The tests of p that are not handed out yet, next one first, when they wait for q only. */
  function Line(s: State, p: set<Test>, q: Key): seq<Test> {
    Of(Queue(s.waiting, q), p) + Of(Reverse(s.files), p)
  }

  predicate OneQueue(s: State, p: set<Test>, q: Key) {
    forall k, t | k in s.waiting && t in s.waiting[k] && t in p :: k == q
  }

  lemma {:induction false} OfConcat(a: seq<Test>, b: seq<Test>, p: set<Test>)
    ensures Of(a + b, p) == Of(a, p) + Of(b, p)
  {
    if a == [] {
      assert a + b == b;
    } else {
      assert (a + b)[1..] == a[1..] + b;
      OfConcat(a[1..], b, p);
    }
  }

  lemma {:induction false} OfNone(s: seq<Test>, p: set<Test>)
    requires forall t | t in s :: t !in p
    ensures Of(s, p) == []
  {
    if s != [] { OfNone(s[1..], p); }
  }

  lemma OfOne(t: Test, p: set<Test>)
    ensures Of([t], p) == if t in p then [t] else []
  {
    assert [t][1..] == [];
  }

  lemma {:induction false} ReverseConcat(a: seq<Test>, b: seq<Test>)
    ensures Reverse(a + b) == Reverse(b) + Reverse(a)
  {
    if a == [] {
      assert a + b == b;
    } else {
      assert (a + b)[1..] == a[1..] + b;
      ReverseConcat(a[1..], b);
    }
  }

  lemma {:induction false} ReverseTwice(s: seq<Test>)
    ensures Reverse(Reverse(s)) == s
  {
    if s != [] {
      ReverseConcat(Reverse(s[1..]), [s[0]]);
      ReverseTwice(s[1..]);
      assert Reverse([s[0]]) == [s[0]] by { assert [s[0]][1..] == []; }
    }
  }

  lemma ReverseMembers(s: seq<Test>)
    ensures forall t :: t in Reverse(s) <==> t in s
  {
    ReversePermutes(s);
    forall t ensures t in Reverse(s) <==> t in s {
      assert t in Reverse(s) <==> t in multiset(Reverse(s));
      assert t in s <==> t in multiset(s);
    }
  }

  /** Pushing tests outside p changes nothing for p. */
  lemma PushOthers(files: seq<Test>, more: seq<Test>, p: set<Test>)
    requires forall t | t in more :: t !in p
    ensures Of(Reverse(files + more), p) == Of(Reverse(files), p)
  {
    ReverseConcat(files, more);
    OfConcat(Reverse(more), Reverse(files), p);
    ReverseMembers(more);
    OfNone(Reverse(more), p);
  }

  // ----- each part of a step keeps the line

  lemma ReleaseKeyKeepsLine(p: set<Test>, q: Key, k: Key, i: Worker, held: map<Key, Worker>, s: State)
    requires OneQueue(s, p, q)
    ensures Line(ReleaseKey(k, i, held, s), p, q) == Line(s, p, q)
    ensures OneQueue(ReleaseKey(k, i, held, s), p, q)
  {
    if k in held && held[k] == i {
      var queue := Queue(s.waiting, k);
      if k == q {
        ReverseConcat(s.files, Reverse(queue));
        ReverseTwice(queue);
        OfConcat(queue, Reverse(s.files), p);
      } else {
        ReverseMembers(queue);
        PushOthers(s.files, Reverse(queue), p);
      }
    }
  }

  lemma {:induction false} ReleaseKeepsLine(p: set<Test>, q: Key, keys: seq<Key>, i: Worker, held: map<Key, Worker>,
                                            s: State)
    requires OneQueue(s, p, q)
    ensures Line(Release(keys, i, held, s), p, q) == Line(s, p, q)
    ensures OneQueue(Release(keys, i, held, s), p, q)
    decreases |keys|
  {
    if keys != [] {
      ReleaseKeyKeepsLine(p, q, keys[0], i, held, s);
      ReleaseKeepsLine(p, q, keys[1..], i, held, ReleaseKey(keys[0], i, held, s));
    }
  }

  lemma AdmitKeepsLine(p: set<Test>, q: Key, s: State)
    requires forall t | t in s.sequential :: t !in p
    ensures Line(Admit(s), p, q) == Line(s, p, q)
  {
    PushOthers(s.files, s.sequential, p);
  }

  /** All pending tests of p meet the same active key, or none of them meets one. */
  predicate Level(cfg: Config, s: State, p: set<Test>, q: Key, at: Option<Key>) {
    && (forall t | t in s.files && t in p :: FirstActive(Keys(cfg, t), s.active) == at)
    && (at == Some(q) || (at == None && Of(Queue(s.waiting, q), p) == []))
  }

  /** Either all tests of p that are popped leave the line in order, or all of them go to the end of one queue. */
  lemma {:induction false} TakeKeepsLine(cfg: Config, p: set<Test>, q: Key, at: Option<Key>, size: nat, s: State,
                                         batch: seq<Test>, r: State, files: seq<Test>)
    requires OneQueue(s, p, q) && Level(cfg, s, p, q, at)
    requires (r, files) == Take(cfg, size, s, batch)
    ensures Of(files, p) + Line(r, p, q) == Of(batch, p) + Line(s, p, q)
    ensures OneQueue(r, p, q) && (at == None ==> Of(Queue(r.waiting, q), p) == [])
    ensures at != None ==> Of(files, p) == Of(batch, p)
    decreases |s.files|
  {
    if |batch| <= size && s.files != [] {
      var file := s.files[|s.files| - 1];
      var rest := s.(files := s.files[..|s.files| - 1]);
      assert s.files == rest.files + [file];
      match FirstActive(Keys(cfg, file), s.active)
      case Some(k) =>
        var next := rest.(waiting := s.waiting[k := Queue(s.waiting, k) + [file]]);
        PutOffKeepsLine(p, q, s, file, k, next);
        TakeKeepsLine(cfg, p, q, at, size, next, batch, r, files);
      case None =>
        PickKeepsLine(p, q, s, file, rest, batch);
        TakeKeepsLine(cfg, p, q, at, size, rest, batch + [file], r, files);
        OfConcat(batch, [file], p);
        OfOne(file, p);
    }
  }

  lemma PickKeepsLine(p: set<Test>, q: Key, s: State, file: Test, rest: State, batch: seq<Test>)
    requires s.files != [] && file == s.files[|s.files| - 1] && rest == s.(files := s.files[..|s.files| - 1])
    requires file in p ==> Of(Queue(s.waiting, q), p) == []
    ensures Of(batch + [file], p) + Line(rest, p, q) == Of(batch, p) + Line(s, p, q)
  {
    var ahead, behind, one := Of(batch, p), Of(Reverse(rest.files), p), Of([file], p);
    ReverseLast(s.files);
    OfConcat([file], Reverse(rest.files), p);
    OfConcat(batch, [file], p);
    if file in p {
      assert ahead + one + ([] + behind) == ahead + ([] + (one + behind));
    } else {
      OfNone([file], p);
      assert ahead + one == ahead && one + behind == behind;
    }
  }

  lemma PutOffKeepsLine(p: set<Test>, q: Key, s: State, file: Test, k: Key, next: State)
    requires OneQueue(s, p, q) && (file in p ==> k == q)
    requires s.files != [] && file == s.files[|s.files| - 1] && next.files == s.files[..|s.files| - 1]
    requires next.waiting == s.waiting[k := Queue(s.waiting, k) + [file]]
    ensures Line(next, p, q) == Line(s, p, q) && OneQueue(next, p, q)
    ensures file !in p ==> Of(Queue(next.waiting, q), p) == Of(Queue(s.waiting, q), p)
  {
    ReverseLast(s.files);
    OfConcat([file], Reverse(next.files), p);
    OfConcat(Queue(s.waiting, k), [file], p);
    OfOne(file, p);
  }

  // ----- active keys belong to tests that are out

  predicate Owned(cfg: Config, s: State, running: map<Worker, seq<Test>>) {
    forall k | k in s.active :: s.active[k] in running && k in KeysOf(cfg, running[s.active[k]])
  }

  /** The master after a worker has given back its keys and before it gets a batch. */
  ghost function Before(sys: System, e: Event): State {
    if e.Ready? then sys.master else Finish(e.i, sys.master)
  }

  lemma BeforeFits(cfg: Config, tests: multiset<Test>, sys: System, e: Event)
    requires Inv(cfg, tests, sys) && Enabled(sys, e)
    ensures Coherent(cfg, Before(sys, e), sys.running - {e.i})
    ensures forall w, t | w in sys.running - {e.i} && t in sys.running[w] :: !RunsAlone(cfg, t)
    ensures forall t | t in Before(sys, e).sequential :: RunsAlone(cfg, t)
    ensures e.i in sys.master.alive && Before(sys, e).alive == sys.master.alive
  {
    var m := sys.master;
    forall t | t in m.sequential ensures RunsAlone(cfg, t) { assert AloneAt(cfg, m, sys.running, 0, t); }
    forall w, t | w in sys.running - {e.i} && t in sys.running[w] ensures !RunsAlone(cfg, t) {
      assert AloneAt(cfg, m, sys.running, w, t);
    }
    if e.Ready? {
      assert sys.running - {e.i} == sys.running;
    } else {
      FinishKeeps(cfg, m, sys.running, e.i);
    }
  }

  lemma BeforeOwned(cfg: Config, tests: multiset<Test>, sys: System, e: Event)
    requires Inv(cfg, tests, sys) && Enabled(sys, e) && Owned(cfg, sys.master, sys.running)
    ensures Owned(cfg, Before(sys, e), sys.running - {e.i})
  {
    var m := sys.master;
    if e.TestsFinished? {
      ReleaseGivesBack(m.order, e.i, m.active, m.(inProgress := m.inProgress - 1));
      forall k | k in Before(sys, e).active ensures m.active[k] != e.i { assert KeyFits(cfg, m, sys.running, k); }
    }
  }

  lemma {:induction false} TakeSame(cfg: Config, size: nat, s: State, batch: seq<Test>)
    ensures var r := Take(cfg, size, s, batch).0; r == s.(files := r.files, waiting := r.waiting)
    decreases |s.files|
  {
    if |batch| <= size && s.files != [] {
      var file := s.files[|s.files| - 1];
      var rest := s.(files := s.files[..|s.files| - 1]);
      match FirstActive(Keys(cfg, file), s.active)
      case Some(k) => TakeSame(cfg, size, rest.(waiting := s.waiting[k := Queue(s.waiting, k) + [file]]), batch);
      case None => TakeSame(cfg, size, rest, batch + [file]);
    }
  }

  lemma AfterOwned(cfg: Config, i: Worker, taken: State, batch: seq<Test>, running: map<Worker, seq<Test>>)
    requires Owned(cfg, taken, running) && i !in running
    ensures Owned(cfg, After(cfg, i, taken, batch), if batch == [] then running else running[i := batch])
  {
    if batch != [] {
      var r, c := After(cfg, i, taken, batch), Claim(cfg, batch, i, taken);
      ClaimClaims(cfg, batch, i, taken);
      var now := running[i := batch];
      forall k | k in r.active ensures r.active[k] in now && k in KeysOf(cfg, now[r.active[k]]) {
        assert ClaimedAt(taken, c, KeysOf(cfg, batch), i, k);
      }
    }
  }

  lemma ScheduleOwned(cfg: Config, i: Worker, s: State, running: map<Worker, seq<Test>>, r: State, batch: seq<Test>)
    requires Owned(cfg, s, running) && i !in running && i in s.alive && (r, batch) == Schedule(cfg, i, s)
    ensures Owned(cfg, r, if batch == [] then running else running[i := batch])
  {
    var size := BatchSize(cfg, |s.alive|);
    var taken := Take(cfg, size, Admit(s), []).0;
    TakeSame(cfg, size, Admit(s), []);
    AfterOwned(cfg, i, taken, batch, running);
  }

  lemma StepKeepsOwned(cfg: Config, tests: multiset<Test>, sys: System, e: Event)
    requires Inv(cfg, tests, sys) && Enabled(sys, e) && Owned(cfg, sys.master, sys.running)
    ensures e.i in sys.master.alive
    ensures Owned(cfg, Step(cfg, sys, e).master, Step(cfg, sys, e).running)
  {
    BeforeFits(cfg, tests, sys, e);
    BeforeOwned(cfg, tests, sys, e);
    var (r, batch) := Schedule(cfg, e.i, Before(sys, e));
    ScheduleOwned(cfg, e.i, Before(sys, e), sys.running - {e.i}, r, batch);
    assert e.Ready? ==> sys.running - {e.i} == sys.running;
  }

  // ----- tests that carry the same list of keys

  /** Every test with a key of the list carries exactly the list. */
  predicate Group(cfg: Config, keys: seq<Key>) {
    && keys != [] && ALL !in keys
    && forall t, k | t in cfg.conflicts && k in keys && k in cfg.conflicts[t] :: cfg.conflicts[t] == keys
  }

  /** The tests that conflict with k. */
  function Sharing(cfg: Config, k: Key): set<Test> {
    set t | t in cfg.conflicts && k in cfg.conflicts[t]
  }

  lemma SharingGroup(cfg: Config, keys: seq<Key>, k: Key)
    requires Group(cfg, keys) && k in keys
    ensures Sharing(cfg, k) == Sharing(cfg, keys[0])
  {
    forall t | t in cfg.conflicts ensures t in Sharing(cfg, k) <==> t in Sharing(cfg, keys[0]) {
      assert keys[0] in keys;
    }
  }

  lemma ActiveTogether(cfg: Config, keys: seq<Key>, s: State, running: map<Worker, seq<Test>>, k: Key)
    requires Group(cfg, keys) && Owned(cfg, s, running) && Coherent(cfg, s, running)
    requires k in keys && k in s.active
    ensures keys[0] in s.active
  {
    var w := s.active[k];
    var b :| b in running[w] && k in Keys(cfg, b);
    assert keys[0] in Keys(cfg, b);
    assert BatchFits(cfg, s, running, w);
  }

  /** The keys of a group are active together, so its tests wait for the first one. */
  lemma GroupLevel(cfg: Config, keys: seq<Key>, s: State, running: map<Worker, seq<Test>>)
    requires Group(cfg, keys) && Owned(cfg, s, running) && Coherent(cfg, s, running)
    ensures FirstActive(keys, s.active) == if keys[0] in s.active then Some(keys[0]) else None
    ensures Level(cfg, s, Sharing(cfg, keys[0]), keys[0], FirstActive(keys, s.active))
  {
    if keys[0] !in s.active {
      forall k | k in keys ensures k !in s.active {
        if k in s.active { ActiveTogether(cfg, keys, s, running, k); }
      }
      assert KeyFits(cfg, s, running, keys[0]);
    }
    forall t | t in Sharing(cfg, keys[0]) ensures Keys(cfg, t) == keys { assert keys[0] in keys; }
  }

  lemma GroupStepKeepsLine(cfg: Config, tests: multiset<Test>, keys: seq<Key>, sys: System, e: Event)
    requires Inv(cfg, tests, sys) && Enabled(sys, e) && Owned(cfg, sys.master, sys.running)
    requires Group(cfg, keys) && OneQueue(sys.master, Sharing(cfg, keys[0]), keys[0])
    ensures e.i in sys.master.alive
    ensures OneQueue(Step(cfg, sys, e).master, Sharing(cfg, keys[0]), keys[0])
    ensures var p, after := Sharing(cfg, keys[0]), Step(cfg, sys, e);
            Of(after.log, p) + Line(after.master, p, keys[0]) == Of(sys.log, p) + Line(sys.master, p, keys[0])
  {
    var s, p := Before(sys, e), Sharing(cfg, keys[0]);
    var (r, batch) := Schedule(cfg, e.i, s);
    BeforeFits(cfg, tests, sys, e);
    BeforeOwned(cfg, tests, sys, e);
    BeforeKeepsLine(p, keys[0], sys, e);
    GroupLevel(cfg, keys, s, sys.running - {e.i});
    forall t | t in p ensures !RunsAlone(cfg, t) { assert keys[0] in keys; }
    ScheduleKeepsLine(cfg, p, keys[0], FirstActive(keys, s.active), e.i, s, r, batch);
    OfConcat(sys.log, batch, p);
    Regrouped(Of(sys.log, p), Of(batch, p), Line(r, p, keys[0]));
  }

  lemma Regrouped(a: seq<Test>, b: seq<Test>, c: seq<Test>)
    ensures (a + b) + c == a + (b + c)
  {
  }

  lemma BeforeKeepsLine(p: set<Test>, q: Key, sys: System, e: Event)
    requires OneQueue(sys.master, p, q)
    ensures Line(Before(sys, e), p, q) == Line(sys.master, p, q) && OneQueue(Before(sys, e), p, q)
  {
    var m := sys.master;
    ReleaseKeepsLine(p, q, m.order, e.i, m.active, m.(inProgress := m.inProgress - 1));
  }

  lemma ScheduleKeepsLine(cfg: Config, p: set<Test>, q: Key, at: Option<Key>, i: Worker, s: State, r: State,
                          batch: seq<Test>)
    requires i in s.alive && (r, batch) == Schedule(cfg, i, s)
    requires OneQueue(s, p, q) && Level(cfg, s, p, q, at)
    requires (forall t | t in s.sequential :: RunsAlone(cfg, t)) && forall t | t in p :: !RunsAlone(cfg, t)
    ensures Of(batch, p) + Line(r, p, q) == Line(s, p, q)
    ensures OneQueue(r, p, q) && (at == None ==> Of(Queue(r.waiting, q), p) == [])
    ensures at != None ==> Of(batch, p) == []
  {
    var size := BatchSize(cfg, |s.alive|);
    var (taken, files) := Take(cfg, size, Admit(s), []);
    assert files == batch && r == After(cfg, i, taken, batch);
    AdmitKeepsLine(p, q, s);
    TakeKeepsLine(cfg, p, q, at, size, Admit(s), [], taken, batch);
    AfterKeepsLine(cfg, p, q, i, taken, batch);
  }

  lemma AfterKeepsLine(cfg: Config, p: set<Test>, q: Key, i: Worker, taken: State, batch: seq<Test>)
    ensures var r := After(cfg, i, taken, batch); r.files == taken.files && r.waiting == taken.waiting
  {
    if batch != [] { ClaimClaims(cfg, batch, i, taken); }
  }

  // ----- runs

  /** In every run, the tests of a group are handed out in the order they were given. */
  lemma {:induction false} RunKeepsOrder(cfg: Config, tests: multiset<Test>, keys: seq<Key>, sys: System,
                                         events: seq<Event>)
    requires Inv(cfg, tests, sys) && Owned(cfg, sys.master, sys.running) && IsRun(cfg, sys, events)
    requires Group(cfg, keys) && OneQueue(sys.master, Sharing(cfg, keys[0]), keys[0])
    ensures var p, after := Sharing(cfg, keys[0]), Outcome(cfg, sys, events);
            Of(after.log, p) + Line(after.master, p, keys[0]) == Of(sys.log, p) + Line(sys.master, p, keys[0])
    decreases |events|
  {
    if events != [] {
      StepKeeps(cfg, tests, sys, events[0]);
      StepKeepsOwned(cfg, tests, sys, events[0]);
      GroupStepKeepsLine(cfg, tests, keys, sys, events[0]);
      RunKeepsOrder(cfg, tests, keys, Step(cfg, sys, events[0]), events[1..]);
    }
  }

  lemma OrderFrom(cfg: Config, tests: multiset<Test>, keys: seq<Key>, sys: System, events: seq<Event>, after: System)
    requires Inv(cfg, tests, sys) && Owned(cfg, sys.master, sys.running) && IsRun(cfg, sys, events)
    requires Group(cfg, keys) && OneQueue(sys.master, Sharing(cfg, keys[0]), keys[0])
    requires after == Outcome(cfg, sys, events) && !Goes(after.master)
    ensures var p := Sharing(cfg, keys[0]); Of(after.log, p) == Of(sys.log, p) + Line(sys.master, p, keys[0])
  {
    RunKeepsOrder(cfg, tests, keys, sys, events);
    RunKeeps(cfg, tests, sys, events);
    assert |after.running| == 0;
    assert KeyFits(cfg, after.master, after.running, keys[0]);
  }

  /** A run that ends the loop has handed out the tests that conflict with k in their original order. */
  lemma OrderKept(cfg: Config, given: seq<Test>, sequential: seq<Test>, workers: set<Worker>, keys: seq<Key>, k: Key,
                  events: seq<Event>, after: System)
    requires workers != {} && Group(cfg, keys) && k in keys
    requires forall t | t in given :: !RunsAlone(cfg, t)
    requires forall t | t in sequential :: RunsAlone(cfg, t)
    requires IsRun(cfg, Start(Reverse(given), sequential, workers), events)
    requires after == Outcome(cfg, Start(Reverse(given), sequential, workers), events) && !Goes(after.master)
    ensures Of(after.log, Sharing(cfg, k)) == Of(given, Sharing(cfg, k))
  {
    var files := Reverse(given);
    SharingGroup(cfg, keys, k);
    ReverseMembers(given);
    ReverseTwice(given);
    StartFits(cfg, files, sequential, workers);
    OrderFrom(cfg, multiset(files) + multiset(sequential), keys, Start(files, sequential, workers), events, after);
  }

  // ----- a second key loses the order

  const PAIR: Config := Config(map["b" := ["L"], "c" := ["K", "L"], "d" := ["K"]], 4, true, false)

  /** Worker 1 has just been sent "a" and "b". */
  const SENT: State := State(["d", "c"], [], map["L" := 1], ["L"], map[], 1, {1, 2})

  lemma FirstTwo()
    ensures Handle(PAIR, false, 1, Start(Reverse(["a", "b", "c", "d"]), [], {1, 2}).master) == (SENT, ["a", "b"])
  {
    var given := ["a", "b", "c", "d"];
    assert given[1..] == ["b", "c", "d"] && ["b", "c", "d"][1..] == ["c", "d"] && ["c", "d"][1..] == ["d"]
             && ["d"][1..] == [];
    assert Reverse(given) == ["d", "c", "b", "a"];
    var s := Start(["d", "c", "b", "a"], [], {1, 2}).master;
    assert |s.alive| == 2 && BatchSize(PAIR, 2) == 1;
    assert s.files[..3] == ["d", "c", "b"] && s.files[..3][..2] == ["d", "c"];
    var t := s.(files := ["d", "c"]);
    assert FirstActive(Keys(PAIR, "a"), s.active).None? && FirstActive(Keys(PAIR, "b"), s.active).None?;
    assert Take(PAIR, 1, t, ["a", "b"]) == (t, ["a", "b"]);
    assert [] + ["a"] == ["a"] && ["a"] + ["b"] == ["a", "b"];
    assert Take(PAIR, 1, s.(files := ["d", "c", "b"]), ["a"]) == (t, ["a", "b"]);
    assert Take(PAIR, 1, s, []) == (t, ["a", "b"]);
    assert ["a", "b"][1..] == ["b"] && ["b"][1..] == [];
    assert ClaimKeys(["L"], 1, t) == ClaimKey("L", 1, t) by { assert ["L"][1..] == []; }
    assert ClaimKeys([], 1, t) == t;
    assert Claim(PAIR, ["b"], 1, t) == ClaimKey("L", 1, t);
    assert Claim(PAIR, ["a", "b"], 1, t) == ClaimKey("L", 1, t);
    assert SENT == ClaimKey("L", 1, t).(inProgress := 1);
  }

  lemma ThirdOvertakes()
    ensures Handle(PAIR, false, 2, SENT).1 == ["d"]
  {
    assert |SENT.alive| == 2 && BatchSize(PAIR, 2) == 1;
    assert SENT.files[..1] == ["d"] && ["d"][..0] == [];
    var one := SENT.(files := ["d"], waiting := map["L" := ["c"]]);
    assert ["K", "L"][1..] == ["L"];
    assert FirstActive(["L"], SENT.active) == Some("L");
    assert FirstActive(Keys(PAIR, "c"), SENT.active) == Some("L");
    assert ["K"][1..] == [] && FirstActive(Keys(PAIR, "d"), SENT.active).None?;
    assert [] + ["d"] == ["d"];
    assert Take(PAIR, 1, one.(files := []), ["d"]).1 == ["d"];
    assert Take(PAIR, 1, one, []).1 == ["d"];
    assert Take(PAIR, 1, SENT, []).1 == ["d"];
  }

  lemma TwoOfKey()
    ensures Of(["a", "b", "c", "d"], Sharing(PAIR, "K")) == ["c", "d"]
  {
    var p := Sharing(PAIR, "K");
    assert Keys(PAIR, "c")[0] == "K" && Keys(PAIR, "d")[0] == "K";
    assert "a" !in p && "b" !in p && "c" in p && "d" in p;
    OfConcat(["a", "b"], ["c", "d"], p);
    OfNone(["a", "b"], p);
    assert ["c", "d"][1..] == ["d"] && ["d"][1..] == [];
    assert ["a", "b"] + ["c", "d"] == ["a", "b", "c", "d"];
  }

  /** "c" comes before "d" and both conflict with "K", yet "d" is out while "c" still waits for "L". */
  lemma OrderLost()
    ensures Of(["a", "b", "c", "d"], Sharing(PAIR, "K")) == ["c", "d"]
    ensures var start, events := Start(Reverse(["a", "b", "c", "d"]), [], {1, 2}), [Ready(1), Ready(2)];
            IsRun(PAIR, start, events) && Outcome(PAIR, start, events).log == ["a", "b", "d"]
  {
    TwoOfKey();
    FirstEvent();
    SecondEvent();
    TwoEvents(PAIR, Start(Reverse(["a", "b", "c", "d"]), [], {1, 2}), Ready(1), Ready(2));
  }

  lemma FirstEvent()
    ensures var start := Start(Reverse(["a", "b", "c", "d"]), [], {1, 2});
            && Enabled(start, Ready(1)) && 1 in start.master.alive
            && Step(PAIR, start, Ready(1)) == System(SENT, {2}, map[1 := ["a", "b"]], multiset{}, ["a", "b"])
  {
    FirstTwo();
    assert [] + ["a", "b"] == ["a", "b"] && {1, 2} - {1} == {2};
  }

  lemma SecondEvent()
    ensures Step(PAIR, System(SENT, {2}, map[1 := ["a", "b"]], multiset{}, ["a", "b"]), Ready(2)).log == ["a", "b", "d"]
  {
    ThirdOvertakes();
    assert ["a", "b"] + ["d"] == ["a", "b", "d"];
  }

  lemma TwoEvents(cfg: Config, sys: System, d: Event, e: Event)
    requires Enabled(sys, d) && d.i in sys.master.alive
    requires Enabled(Step(cfg, sys, d), e) && e.i in Step(cfg, sys, d).master.alive
    ensures IsRun(cfg, sys, [d, e]) && Outcome(cfg, sys, [d, e]) == Step(cfg, Step(cfg, sys, d), e)
  {
    var next := Step(cfg, sys, d);
    assert [e][0] == e && [e][1..] == [] && IsRun(cfg, Step(cfg, next, e), []);
    assert IsRun(cfg, next, [e]) && Outcome(cfg, next, [e]) == Step(cfg, next, e);
    assert [d, e][0] == d && [d, e][1..] == [e];
  }
}
