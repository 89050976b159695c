/**
 * Short runs that reach the states in which the function operations of runkit_functions.c
 * break an invariant of FunctionRuns, FunctionCaches and FunctionCalls.
 */
module FunctionWitnesses {
  import opened Wrappers
  import opened FunctionTable
  import opened FunctionRuns
  import opened FunctionCaches
  import opened FunctionCalls

  const BODY: Code := Code(1, 0, 0)
  const LARGE: Code := Code(2, 0, 10)

  /** The start of a request: an internal "p", a user function "h" that calls nothing, a closure, and the script. */
  const START: State := State(map[0 := Internal(7), 1 := User(BODY, [], map[]), 2 := User(LARGE, [], map[]),
                                  3 := User(BODY, [], map[])],
                              4, map["p" := 0, "h" := 1], map[], [], {2}, [3], true)

  lemma Lowers()
    ensures Lower("p") == "p" && Lower("h") == "h" && Lower("q") == "q"
  {
    assert "p"[1..] == "" && "h"[1..] == "" && "q"[1..] == "";
    assert Lower("") == "";
  }

  lemma StartKnown()
    ensures Valid(START) && AllRight(START) && Roomy(START) && TypeKept(START)
  {
    forall f ensures f in START.fns ==> Known(START, f) {}
    forall f, n ensures Callable(START, f) ==> CacheFits(START, f, n) {}
    forall f ensures Visited(START, f) ==> FnFits(START, f) {}
    forall n ensures TypeKeptAt(START, n) {}
  }

  lemma RunOn(s: State, op: Op, ops: seq<Op>)
    requires Valid(s) && Enabled(s, op) && IsRun(Step(s, op), ops)
    ensures IsRun(s, [op] + ops) && Outcome(s, [op] + ops) == Outcome(Step(s, op), ops)
  {
    assert ([op] + ops)[1..] == ops;
  }

  lemma TwoSteps(s: State, a: Op, b: Op)
    requires Valid(s) && Enabled(s, a) && Valid(Step(s, a)) && Enabled(Step(s, a), b)
    ensures IsRun(s, [a, b]) && Outcome(s, [a, b]) == Step(Step(s, a), b)
  {
    var s1 := Step(s, a);
    assert [b][1..] == [] && IsRun(Step(s1, b), []) && IsRun(s1, [b]) && Outcome(s1, [b]) == Step(s1, b);
    assert [a, b][1..] == [b] && [a, b][0] == a;
  }

  // ----- a stale cache that is run

  /** The script m is about to call "p", an alias of c, which will call "h". */
  ghost predicate Ready(s: State, m: FnId, a: FnId, c: FnId, h: FnId) {
    && Valid(s) && s.stack == [m] && m != c && h != c && c !in s.others
    && m in s.fns && s.fns[m].User? && s.fns[m].cache == map[]
    && "p" in s.table && s.table["p"] == a && a in s.fns && s.fns[a] == Alias(c)
    && c in s.fns && s.fns[c].User? && s.fns[c].cache == map[]
    && "h" in s.table && s.table["h"] == h && h in s.fns && s.fns[h].User?
    && forall n | n in s.table :: s.table[n] != c
  }

  /** The first call of a name by the running function f, whose cache is empty. */
  lemma FirstCall(s: State, f: FnId, name: Name, g: FnId, e: FnId)
    requires Valid(s) && s.stack != [] && s.stack[|s.stack| - 1] == f && f in s.fns && s.fns[f].User?
    requires s.fns[f].cache == map[] && name in s.table && s.table[name] == g && Entered(s, g) == Some(e)
    ensures Enabled(s, Call(name))
    ensures Step(s, Call(name))
         == s.(fns := s.fns[f := s.fns[f].(cache := map[name := g])], stack := s.stack + [e])
    ensures Valid(Step(s, Call(name)))
  {
    assert map[][name := g] == map[name := g];
  }

  lemma TwoReturns(s: State, m: FnId, c: FnId, h: FnId)
    requires Valid(s) && s.stack == [m, c, h]
    ensures Enabled(s, Return) && Valid(Step(s, Return)) && Enabled(Step(s, Return), Return)
    ensures Valid(Step(Step(s, Return), Return)) && Step(Step(s, Return), Return) == s.(stack := [m])
  {
    assert [m, c, h][..2] == [m, c] && [m, c][..1] == [m];
  }

  lemma TwoCalls(s: State, m: FnId, a: FnId, c: FnId, h: FnId)
    requires Ready(s, m, a, c, h)
    ensures Enabled(s, Call("p")) && Valid(Step(s, Call("p"))) && Enabled(Step(s, Call("p")), Call("h"))
    ensures var r := Step(Step(s, Call("p")), Call("h"));
            && Valid(r) && r.stack == [m, c, h] && r.table == s.table && r.others == s.others
            && c in r.fns && r.fns[c].User? && r.fns[c].cache == map["h" := h]
            && a in r.fns && r.fns[a] == Alias(c) && h in r.fns && r.fns[h].User?
  {
    var s1 := Step(s, Call("p"));
    FirstCall(s, m, "p", a, c);
    FirstCall(s1, c, "h", h, h);
    assert [m] + [c] == [m, c] && [m, c] + [h] == [m, c, h];
  }

  /** Then "h" is removed, and "p" invoked again. */
  lemma GoesStale(s: State, c: FnId, h: FnId) returns (ops: seq<Op>)
    requires Valid(s) && Hidden(s, "p", c) && Cached(s, c, "h") && CacheFits(s, c, "h")
    requires "h" in s.table && s.table["h"] == h && s.fns[h].User?
    ensures IsRun(s, ops) && |ops| == 2
    ensures var r := Outcome(s, ops);
            Visited(r, c) && !Coherent(r) && "h" !in r.table && Enabled(r, Call("h")) && Found(r, "h") == Some(h)
  {
    Lowers();
    HiddenCacheGoesStale(s, "p", c, "h");
    TwoSteps(s, DoRemove("h"), Invoke(c));
    ops := [DoRemove("h"), Invoke(c)];
  }

  lemma FourSteps(s: State, a: Op, b: Op, c: Op, d: Op, ops: seq<Op>)
    requires Valid(s) && Enabled(s, a) && Valid(Step(s, a)) && Enabled(Step(s, a), b)
    requires Valid(Step(Step(s, a), b)) && Enabled(Step(Step(s, a), b), c)
    requires Valid(Step(Step(Step(s, a), b), c)) && Enabled(Step(Step(Step(s, a), b), c), d)
    requires IsRun(Step(Step(Step(Step(s, a), b), c), d), ops)
    ensures var all := [a] + ([b] + ([c] + ([d] + ops)));
            IsRun(s, all) && Outcome(s, all) == Outcome(Step(Step(Step(Step(s, a), b), c), d), ops)
  {
    RunOn(Step(Step(Step(s, a), b), c), d, ops);
    RunOn(Step(Step(s, a), b), c, [d] + ops);
    RunOn(Step(s, a), b, [c] + ([d] + ops));
    RunOn(s, a, [b] + ([c] + ([d] + ops)));
  }

  lemma Used(s: State, m: FnId, a: FnId, c: FnId, h: FnId)
    requires Ready(s, m, a, c, h)
    ensures Enabled(s, Call("p")) && Valid(Step(s, Call("p"))) && Enabled(Step(s, Call("p")), Call("h"))
    ensures var s2 := Step(Step(s, Call("p")), Call("h"));
            && Valid(s2) && Enabled(s2, Return) && Valid(Step(s2, Return)) && Enabled(Step(s2, Return), Return)
            && var u := Step(Step(s2, Return), Return);
               && Valid(u) && Hidden(u, "p", c) && Cached(u, c, "h") && CacheFits(u, c, "h")
               && u.table == s.table && u.fns[h].User?
  {
    var s2 := Step(Step(s, Call("p")), Call("h"));
    TwoCalls(s, m, a, c, h);
    TwoReturns(s2, m, c, h);
    assert !Visited(Step(Step(s2, Return), Return), c);
  }

  lemma UsedAndStale(s: State, m: FnId, a: FnId, c: FnId, h: FnId) returns (ops: seq<Op>)
    requires Ready(s, m, a, c, h)
    ensures IsRun(s, ops) && |ops| == 6
    ensures var r := Outcome(s, ops);
            Visited(r, c) && !Coherent(r) && "h" !in r.table && Enabled(r, Call("h")) && Found(r, "h") == Some(h)
  {
    Used(s, m, a, c, h);
    var last := GoesStale(Step(Step(Step(Step(s, Call("p")), Call("h")), Return), Return), c, h);
    FourSteps(s, Call("p"), Call("h"), Return, Return, last);
    ops := [Call("p")] + ([Call("h")] + ([Return] + ([Return] + last)));
  }

  /** An internal "p", a user function "h", a script m that runs, and a closure to redefine "p" with. */
  ghost predicate Begins(s: State, m: FnId, h: FnId, src: FnId) {
    && Valid(s) && s.internalOverride && s.stack == [m] && m in s.fns && s.fns[m].User?
    && "p" in s.table && s.fns[s.table["p"]].Internal? && "p" !in s.replaced
    && "h" in s.table && s.table["h"] == h && s.fns[h].User? && src in s.fns && s.fns[src].User?
  }

  /** The saved clone, the copied code c and the alias are three new functions. */
  lemma RedefinedReady(s: State, m: FnId, h: FnId, src: FnId) returns (a: FnId, c: FnId)
    requires Begins(s, m, h, src)
    ensures Redefine(s, "p", src).1 && c == s.free + 1 && Ready(Redefine(s, "p", src).0, m, a, c, h)
  {
    Lowers();
    var s1 := Fetch(s, "p", true).0;
    var (s2, f) := Clone(s1, src, true);
    a, c := f, s1.free;
    RedefineEvolves(s, "p", src);
    RedefinedAt(s1, src, m, c, h);
  }

  lemma RedefinedAt(s: State, src: FnId, m: FnId, c: FnId, h: FnId)
    requires Valid(s) && src in s.fns && s.fns[src].User? && s.stack == [m] && m in s.fns && s.fns[m].User?
          && c == s.free
    requires "p" in s.table && "h" in s.table && s.table["h"] == h && h in s.fns && s.fns[h].User?
    requires Valid(Redefined(s, "p", src, true))
    ensures Ready(Redefined(s, "p", src, true), m, c + 1, c, h)
  {
    var r := Redefined(s, "p", src, true);
    assert Visited(s, m);
    RedefinedCaches(s, "p", src, true, m);
    RedefinedCaches(s, "p", src, true, h);
    NewCode(s, src, c);
    assert r.table["h"] == h && forall n | n in r.table :: r.table[n] != c;
  }

  lemma NewCode(s: State, src: FnId, c: FnId)
    requires Valid(s) && src in s.fns && s.fns[src].User? && c == s.free
    ensures var r := Redefined(s, "p", src, true);
            && c in r.fns && r.fns[c].User? && r.fns[c].cache == map[] && c + 1 in r.fns && r.fns[c + 1] == Alias(c)
            && r.table == s.table["p" := c + 1] && r.others == s.others && r.stack == s.stack
  {
    var (s1, f) := Clone(s, src, true);
    var s2 := ClearAll(s1);
    assert f == c + 1 && !Visited(s1, c) && !Visited(s2, c);
    assert FixAll(s2, "p", f).fns[c] == s1.fns[c];
  }

  /**
   * Redefine "p"; call it, so that its new code calls "h"; return; remove "h"; invoke "p" again.  The code behind
   * "p" is now in reach with an outdated cache, and its call of "h" runs the removed function.
   */
  lemma GoesStaleFrom(s: State, m: FnId, h: FnId, src: FnId) returns (ops: seq<Op>, c: FnId)
    requires Begins(s, m, h, src)
    ensures IsRun(s, ops) && |ops| == 7
    ensures var r := Outcome(s, ops);
            Visited(r, c) && !Coherent(r) && "h" !in r.table && Enabled(r, Call("h")) && Found(r, "h") == Some(h)
  {
    var a;
    a, c := RedefinedReady(s, m, h, src);
    var rest := UsedAndStale(Redefine(s, "p", src).0, m, a, c, h);
    RunOn(s, DoRedefine("p", src), rest);
    ops := [DoRedefine("p", src)] + rest;
  }

  lemma StaleCacheReached() returns (ops: seq<Op>)
    ensures Valid(START) && AllRight(START) && IsRun(START, ops) && |ops| == 7
    ensures var r := Outcome(START, ops);
            !Coherent(r) && "h" !in r.table && Enabled(r, Call("h")) && Found(r, "h") == Some(1)
  {
    StartKnown();
    var c;
    ops, c := GoesStaleFrom(START, 3, 1, 2);
  }

  // ----- the type of a name that was internal

  /** Remove "p", then copy "h" onto it: a name that was internal is bound to a user function. */
  lemma TypeLostReached()
    ensures var ops := [DoRemove("p"), DoCopy("h", "p")];
            && TypeKept(START) && IsRun(START, ops) && !TypeKept(Outcome(START, ops))
  {
    Lowers();
    StartKnown();
    var gone := Step(START, DoRemove("p"));
    StepEvolves(START, DoRemove("p"));
    TypeKeptIff(START, DoRemove("p"));
    FetchEvolves(START, "p", true);
    assert gone.table == map["h" := 1] && "p" in gone.replaced;
    assert ShapeKept(START, gone, 1) && gone.fns[1].User?;
    TypeKeptIff(gone, DoCopy("h", "p"));
    TwoSteps(START, DoRemove("p"), DoCopy("h", "p"));
  }

  // ----- stack sizes

  /** A small "q", and "h" that calls it and reserves just enough. */
  const CALLS_SMALL: State := START.(fns := START.fns[1 := User(BODY, [Site("q", 0, 80)], map[])]
                                                     [4 := User(BODY, [], map[])],
                                     free := 5, table := map["p" := 0, "h" := 1, "q" := 4])

  lemma CallsSmallKnown()
    ensures Valid(CALLS_SMALL) && Roomy(CALLS_SMALL)
  {
    var s := CALLS_SMALL;
    forall f ensures f in s.fns ==> Known(s, f) {}
    forall f ensures Visited(s, f) ==> FnFits(s, f) {}
  }

  /** Remove "q" and add a larger one: "h" still reserves what the small one needed. */
  lemma AddedTooSmall()
    ensures var ops := [DoRemove("q"), DoAdd("q", 2)];
            Valid(CALLS_SMALL) && Roomy(CALLS_SMALL) && IsRun(CALLS_SMALL, ops) && !Roomy(Outcome(CALLS_SMALL, ops))
  {
    Lowers();
    CallsSmallKnown();
    RemoveQ();
    var r := Remove(CALLS_SMALL, "q").0;
    assert r.fns[1].sites[0].name == "q" && !Reserves(r.fns[1], "q", r.fns[2]);
    AddRoomyIff(r, "q", 2);
    TwoSteps(CALLS_SMALL, DoRemove("q"), DoAdd("q", 2));
  }

  lemma RemoveQ()
    ensures Valid(CALLS_SMALL)
    ensures var r := Remove(CALLS_SMALL, "q").0;
            && Valid(r) && Roomy(r) && Add(r, "q", 2).1 && r.replaced == map[] && 2 in r.fns && r.fns[2].User?
            && r.fns[2].code == LARGE && 1 in r.fns && r.fns[1].User? && r.fns[1].sites == [Site("q", 0, 80)]
            && Visited(r, 1)
  {
    Lowers();
    CallsSmallKnown();
    var r := Remove(CALLS_SMALL, "q").0;
    RemoveEvolves(CALLS_SMALL, "q");
    RemoveKeepsRoomy(CALLS_SMALL, "q");
    assert ShapeKept(CALLS_SMALL, r, 1) && ShapeKept(CALLS_SMALL, r, 2);
    assert r.table["h"] == 1;
  }

  /** The closure calls "h" and reserves just enough for the small "h" there is. */
  const RECURSIVE: State := START.(fns := START.fns[2 := User(LARGE, [Site("h", 0, 80)], map[])])

  /** Redefining "h" with it leaves its own recursive call with the old size. */
  lemma RedefinedTooSmall()
    ensures Valid(RECURSIVE) && Roomy(RECURSIVE) && Enabled(RECURSIVE, DoRedefine("h", 2))
    ensures !Roomy(Step(RECURSIVE, DoRedefine("h", 2)))
  {
    Lowers();
    var s := RECURSIVE;
    forall f ensures f in s.fns ==> Known(s, f) {}
    forall f ensures Visited(s, f) ==> FnFits(s, f) {}
    assert s.fns[2].sites[0].name == "h" && !Reserves(s.fns[2], "h", s.fns[2]);
    RedefineRoomyIff(s, "h", 2);
  }
}
