/**
 * The function table of runkit_functions.c: internal functions and their overrides, alias functions,
 * hard-coded stack reservations, runtime caches, and the request shutdown of runkit.c.
 */
module FunctionTable {
  import opened Wrappers

  type Name = string
  type FnId = nat

  /** The code of a user function: its identity, declared parameters, and variables plus temporaries. */
  datatype Code = Code(id: nat, params: nat, slots: nat)

  /** A ZEND_INIT_FCALL: the name called, the arguments passed, and the stack reserved (op1.num). */
  datatype Site = Site(name: Name, args: nat, size: nat)

  /** A zend_function.  An alias has internal type and forwards to a user function of its own. */
  datatype Obj =
    | Internal(handler: nat)
    | User(code: Code, sites: seq<Site>, cache: map<Name, FnId>)
    | Alias(inner: FnId)

  /**
   * `fns` are the function objects in memory, `others` the methods and the closures, `stack` the user
   * functions on the call stack, the running one last; `misplaced` has integer keys only, so a lookup by
   * name in it never succeeds.
   */
  datatype State = State(fns: map<FnId, Obj>, free: FnId, table: map<Name, FnId>, replaced: map<Name, FnId>,
                         misplaced: seq<Name>, others: set<FnId>, stack: seq<FnId>, internalOverride: bool)

  predicate Known(s: State, f: FnId) {
    f in s.fns && (s.fns[f].Alias? ==> s.fns[f].inner in s.fns && s.fns[s.fns[f].inner].User?)
  }

  ghost predicate Valid(s: State) {
    && (forall f | f in s.fns :: f < s.free)
    && (forall f :: f in s.fns ==> Known(s, f))
    && (forall n | n in s.table :: s.table[n] in s.fns)
    && (forall n | n in s.replaced :: s.replaced[n] in s.fns)
    && (forall f | f in s.others :: f in s.fns)
    && (forall f | f in s.stack :: f in s.fns && s.fns[f].User?)
  }

  /** ASCII lower case. */
  function Lower(name: Name): (r: Name)
    ensures |r| == |name|
    ensures forall i | 0 <= i < |r| ::
              r[i] == if 'A' <= name[i] <= 'Z' then (name[i] as int + 32) as char else name[i]
  {
    if name == "" then ""
    else [if 'A' <= name[0] <= 'Z' then (name[0] as int + 32) as char else name[0]] + Lower(name[1..])
  }

  // ----- passes over all functions

  /** The functions whose code the passes reach: a function behind an alias only while it is running. */
  ghost predicate Visited(s: State, f: FnId) {
    f in s.fns && s.fns[f].User? && (f in s.others || f in s.stack || exists n | n in s.table :: s.table[n] == f)
  }

  /** zend_vm_calc_used_stack: frame, arguments, and what a user function adds, in bytes. */
  function Need(args: nat, callee: Obj): (bytes: int)
    ensures !callee.User? ==> bytes == 80 + 16 * args
    ensures callee.User? && args <= callee.code.params ==> bytes == 80 + 16 * callee.code.slots
    ensures callee.User? && args > callee.code.params ==>
              bytes == 80 + 16 * (args - callee.code.params) + 16 * callee.code.slots
  {
    16 * (5 + args + if callee.User?
                     then callee.code.slots - (if callee.code.params < args then callee.code.params else args)
                     else 0)
  }

  function FixSite(site: Site, name: Name, callee: Obj): Site {
    if site.name == name && Need(site.args, callee) > site.size then site.(size := Need(site.args, callee)) else site
  }

  function FixSites(sites: seq<Site>, name: Name, callee: Obj): (r: seq<Site>)
    ensures |r| == |sites| && forall j | 0 <= j < |r| :: r[j] == FixSite(sites[j], name, callee)
  {
    seq(|sites|, j requires 0 <= j < |sites| => FixSite(sites[j], name, callee))
  }

  /** The object with the stack it reserves for calls of name raised to what the callee needs. */
  function FixObj(obj: Obj, name: Name, callee: Obj): Obj {
    if obj.User? then obj.(sites := FixSites(obj.sites, name, callee)) else obj
  }

  function ClearObj(obj: Obj): Obj {
    if obj.User? then obj.(cache := map[]) else obj
  }

  ghost function FixAll(s: State, name: Name, f: FnId): (r: State)
    requires Valid(s) && f in s.fns
    ensures Valid(r)
  {
    var r := s.(fns := map g | g in s.fns :: if Visited(s, g) then FixObj(s.fns[g], name, s.fns[f]) else s.fns[g]);
    assert forall g :: g in r.fns ==> Known(s, g) && Known(r, g);
    r
  }

  ghost function ClearAll(s: State): (r: State)
    requires Valid(s)
    ensures Valid(r)
  {
    var r := s.(fns := map g | g in s.fns :: if Visited(s, g) then ClearObj(s.fns[g]) else s.fns[g]);
    assert forall g :: g in r.fns ==> Known(s, g) && Known(r, g);
    r
  }

  // ----- building blocks

  /** php_runkit_fetch_function; `change` says that the caller removes or rebinds the function. */
  function Fetch(s: State, name: Name, change: bool): (r: (State, Option<FnId>))
    requires Valid(s)
    ensures Valid(r.0) && (r.1.Some? ==> r.1.value in r.0.fns)
  {
    var n := Lower(name);
    if n !in s.table then (s, None)
    else
      var f := s.table[n];
      if s.fns[f].User? then (s, Some(f))
      else if !s.internalOverride then (s, None)
      else if change && n !in s.replaced then (Save(s, n, f), Some(f))
      else (s, Some(f))
  }

  /** Keeps a clone of the internal function f as the one to restore under n. */
  function Save(s: State, n: Name, f: FnId): (r: State)
    requires Valid(s) && f in s.fns && !s.fns[f].User?
    ensures Valid(r)
  {
    assert Known(s, f);
    Rebind(Alloc(s, s.fns[f]), s.table, s.replaced[n := s.free])
  }

  /** The state with other tables of known functions. */
  function Rebind(s: State, table: map<Name, FnId>, replaced: map<Name, FnId>): (r: State)
    requires Valid(s) && (forall n | n in table :: table[n] in s.fns)
          && forall n | n in replaced :: replaced[n] in s.fns
    ensures Valid(r)
  {
    var r := s.(table := table, replaced := replaced);
    assert forall g :: g in r.fns ==> Known(s, g) && Known(r, g);
    r
  }

  /** php_runkit_function_clone: a user function asked for as internal becomes an alias. */
  function Clone(s: State, f: FnId, internal: bool): (r: (State, FnId))
    requires Valid(s) && f in s.fns
    ensures Valid(r.0) && r.1 in r.0.fns
  {
    assert Known(s, f);
    var s1 := Alloc(s, ClearObj(s.fns[f]));
    if s.fns[f].User? && internal then (Alloc(s1, Alias(s.free)), s1.free) else (s1, s.free)
  }

  function Alloc(s: State, obj: Obj): (r: State)
    requires Valid(s) && (obj.Alias? ==> obj.inner in s.fns && s.fns[obj.inner].User?)
    ensures Valid(r)
  {
    var r := s.(fns := s.fns[s.free := obj], free := s.free + 1);
    assert forall g :: g in r.fns ==> (g != s.free ==> Known(s, g)) && Known(r, g);
    r
  }

  function Misplace(s: State, f: FnId, n: Name): (r: State)
    requires Valid(s) && f in s.fns
    ensures Valid(r)
  {
    var r := if s.fns[f].User? then s else s.(misplaced := s.misplaced + [n]);
    assert forall g :: g in r.fns ==> Known(s, g) && Known(r, g);
    r
  }

  // ----- the operations; src is the closure that holds the new code

  function Add(s: State, name: Name, src: FnId): (State, bool)
    requires Valid(s) && src in s.fns
  {
    var n := Lower(name);
    if name == "" || n in s.table then (s, false)
    else
      var (s1, f) := Clone(s, src, n in s.replaced);
      (s1.(table := s1.table[n := f]), true)
  }

  ghost function Redefine(s: State, name: Name, src: FnId): (State, bool)
    requires Valid(s) && src in s.fns
  {
    var (s1, orig) := Fetch(s, name, true);
    if name == "" || orig.None? then (s, false)
    else
      (Redefined(s1, Lower(name), src, !s1.fns[orig.value].User?), true)
  }

  /** The passes run before the clone is bound. */
  ghost function Redefined(s: State, n: Name, src: FnId, internal: bool): State
    requires Valid(s) && src in s.fns
  {
    var (s1, f) := Clone(s, src, internal);
    var s2 := FixAll(ClearAll(s1), n, f);
    s2.(table := s2.table[n := f])
  }

  ghost function Remove(s: State, name: Name): (State, bool)
    requires Valid(s)
  {
    var (s1, fe) := Fetch(s, name, true);
    if fe.None? then (s1, false)
    else (ClearAll(s1.(table := s1.table - {Lower(name)})), true)
  }

  /** What a renamed function becomes: the original, the function behind an alias, or a clone. */
  function Moved(s: State, f: FnId, internal: bool): (r: (State, FnId))
    requires Valid(s) && f in s.fns
    ensures Valid(r.0) && r.1 in r.0.fns
  {
    assert Known(s, f);
    match s.fns[f]
    case Internal(_) => (s, f)
    case Alias(inner) => (s, if internal then f else inner)
    case User(_, _, _) => Clone(s, f, internal)
  }

  ghost function Rename(s: State, source: Name, target: Name): (State, bool)
    requires Valid(s)
  {
    var a, b := Lower(source), Lower(target);
    if b in s.table then (s, false)
    else
      var (s1, fe) := Fetch(s, source, true);
      if fe.None? then (s1, false) else (Renamed(s1, a, b, fe.value), true)
  }

  ghost function Renamed(s: State, a: Name, b: Name, fe: FnId): State
    requires Valid(s) && fe in s.fns
  {
    var (s1, f) := Moved(s, fe, b in s.replaced);
    Settle(Rebind(s1, (s1.table - {a})[b := f], s1.replaced), b, f)
  }

  /** The passes after f was bound to a new name. */
  ghost function Settle(s: State, b: Name, f: FnId): (r: State)
    requires Valid(s) && f in s.fns
    ensures Valid(r)
  {
    ClearAll(Misplace(FixAll(s, b, f), f, b))
  }

  function Copy(s: State, source: Name, target: Name): (State, bool)
    requires Valid(s)
  {
    var b := Lower(target);
    if b in s.table then (s, false)
    else
      var (s1, fe) := Fetch(s, source, false);
      if fe.None? then (s1, false) else (Copied(s1, b, fe.value), true)
  }

  /** A copied internal function is recorded as misplaced twice. */
  function Copied(s: State, b: Name, fe: FnId): State
    requires Valid(s) && fe in s.fns
  {
    var s1 := Misplace(s, fe, b);
    var (s2, f) := Clone(s1, fe, !s1.fns[fe].User?);
    Misplace(s2, f, b).(table := s2.table[b := f])
  }

  // ----- request shutdown

  function Wipe(table: map<Name, FnId>, misplaced: seq<Name>): map<Name, FnId> {
    if misplaced == [] then table
    else Wipe(if misplaced[0] == "" then table else table - {misplaced[0]}, misplaced[1..])
  }

  function Restored(table: map<Name, FnId>, replaced: map<Name, FnId>): map<Name, FnId> {
    table + (replaced - {""})
  }

  /** PHP_RSHUTDOWN; only the FPM server API restores replaced functions. */
  function Shutdown(s: State, fpm: bool): State {
    var table := Wipe(s.table, s.misplaced);
    if fpm then s.(table := Restored(table, s.replaced), misplaced := [], replaced := map[])
    else s.(table := table, misplaced := [])
  }

  // ----- the live tables

  lemma FixTwice(obj: Obj, name: Name, callee: Obj)
    ensures FixObj(FixObj(obj, name, callee), name, callee) == FixObj(obj, name, callee)
  {
    if obj.User? {
      assert FixSites(FixSites(obj.sites, name, callee), name, callee) == FixSites(obj.sites, name, callee);
    }
  }

  class Functions {
    var fns: map<FnId, Obj>
    var free: FnId
    var functionTable: map<Name, FnId>
    var replacedInternal: map<Name, FnId>
    var misplacedInternal: seq<Name>
    var others: set<FnId>
    var callStack: seq<FnId>
    const internalOverride: bool

    function View(): State
      reads this
    {
      State(fns, free, functionTable, replacedInternal, misplacedInternal, others, callStack, internalOverride)
    }

    constructor (s: State)
      ensures View() == s
    {
      fns, free, others, callStack, internalOverride := s.fns, s.free, s.others, s.stack, s.internalOverride;
      functionTable, replacedInternal, misplacedInternal := s.table, s.replaced, s.misplaced;
    }

    // -- the passes

    method FixHardcodedStackSizes(f: FnId, name: Name, callee: Obj)
      requires f in fns
      modifies this`fns
      ensures fns == old(fns)[f := FixObj(old(fns)[f], name, callee)]
    {
      if !fns[f].User? { return; }
      ghost var was := fns[f];
      var end := |fns[f].sites|;
      for j := 0 to end
        invariant f in fns && fns[f].User? && fns[f] == was.(sites := fns[f].sites) && |fns[f].sites| == end
        invariant forall k | 0 <= k < end :: fns[f].sites[k]
                    == if k < j then FixSite(was.sites[k], name, callee) else was.sites[k]
        invariant fns == old(fns)[f := fns[f]]
      {
        var site := fns[f].sites[j];
        if site.name == name {
          var newSize := Need(site.args, callee);
          if newSize > site.size {
            SetSites(f, fns[f].sites[j := site.(size := newSize)]);
          }
        }
      }
      assert fns[f].sites == FixSites(was.sites, name, callee);
    }

    method SetSites(f: FnId, sites: seq<Site>)
      requires f in fns && fns[f].User?
      modifies this`fns
      ensures fns == old(fns)[f := old(fns)[f].(sites := sites)]
    {
      fns := fns[f := fns[f].(sites := sites)];
    }

    method FixStackSizesOf(some: set<FnId>, name: Name, callee: Obj)
      requires forall f | f in some :: f in fns
      modifies this`fns
      ensures fns.Keys == old(fns).Keys
      ensures forall g | g in fns :: fns[g] == if g in some then FixObj(old(fns)[g], name, callee) else old(fns)[g]
    {
      var todo := some;
      while todo != {}
        invariant todo <= some && fns.Keys == old(fns).Keys
        invariant forall g | g in fns :: fns[g]
                    == if g in some - todo then FixObj(old(fns)[g], name, callee) else old(fns)[g]
        decreases |todo|
      {
        var f :| f in todo;
        todo := todo - {f};
        FixHardcodedStackSizes(f, name, callee);
      }
    }

    /** From the running function down to the script. */
    method FixStackSizesOnStack(name: Name, callee: Obj)
      requires forall f | f in callStack :: f in fns
      modifies this`fns
      ensures fns.Keys == old(fns).Keys
      ensures forall g | g in fns :: fns[g] == if g in callStack then FixObj(old(fns)[g], name, callee) else old(fns)[g]
    {
      var i := |callStack|;
      while i > 0
        invariant 0 <= i <= |callStack| && fns.Keys == old(fns).Keys
        invariant forall g | g in fns :: fns[g]
                    == if g in callStack[i..] then FixObj(old(fns)[g], name, callee) else old(fns)[g]
      {
        i := i - 1;
        assert callStack[i..] == [callStack[i]] + callStack[i + 1..];
        FixTwice(old(fns)[callStack[i]], name, callee);
        FixHardcodedStackSizes(callStack[i], name, callee);
      }
    }

    method FixAllHardcodedStackSizes(name: Name, f: FnId)
      requires Valid(View()) && f in fns
      modifies this`fns
      ensures View() == FixAll(old(View()), name, f)
    {
      var callee := fns[f];
      FixStackSizesOf(functionTable.Values, name, callee);
      label tables:
      FixStackSizesOnStack(name, callee);
      FixStackSizesOf(others, name, callee);
      forall g | g in fns ensures fns[g] == FixAll(old(View()), name, f).fns[g] {
        FixTwice(old(fns)[g], name, callee);
      }
      assert fns == FixAll(old(View()), name, f).fns;
    }

    method ClearRuntimeCache(f: FnId)
      requires f in fns
      modifies this`fns
      ensures fns == old(fns)[f := ClearObj(old(fns)[f])]
    {
      if fns[f].User? {
        fns := fns[f := fns[f].(cache := map[])];
      }
    }

    method ClearRuntimeCacheOf(some: set<FnId>)
      requires forall f | f in some :: f in fns
      modifies this`fns
      ensures fns.Keys == old(fns).Keys
      ensures forall g | g in fns :: fns[g] == if g in some then ClearObj(old(fns)[g]) else old(fns)[g]
    {
      var todo := some;
      while todo != {}
        invariant todo <= some && fns.Keys == old(fns).Keys
        invariant forall g | g in fns :: fns[g] == if g in some - todo then ClearObj(old(fns)[g]) else old(fns)[g]
        decreases |todo|
      {
        var f :| f in todo;
        todo := todo - {f};
        ClearRuntimeCache(f);
      }
    }

    method ClearRuntimeCacheOnStack()
      requires forall f | f in callStack :: f in fns
      modifies this`fns
      ensures fns.Keys == old(fns).Keys
      ensures forall g | g in fns :: fns[g] == if g in callStack then ClearObj(old(fns)[g]) else old(fns)[g]
    {
      var i := |callStack|;
      while i > 0
        invariant 0 <= i <= |callStack| && fns.Keys == old(fns).Keys
        invariant forall g | g in fns :: fns[g] == if g in callStack[i..] then ClearObj(old(fns)[g]) else old(fns)[g]
      {
        i := i - 1;
        assert callStack[i..] == [callStack[i]] + callStack[i + 1..];
        ClearRuntimeCache(callStack[i]);
      }
    }

    method ClearAllFunctionsRuntimeCache()
      requires Valid(View())
      modifies this`fns
      ensures View() == ClearAll(old(View()))
    {
      ClearRuntimeCacheOf(functionTable.Values);
      ClearRuntimeCacheOnStack();
      ClearRuntimeCacheOf(others);
      assert fns == ClearAll(old(View())).fns;
    }

    // -- building blocks

    method AllocFunction(obj: Obj) returns (f: FnId)
      requires Valid(View()) && (obj.Alias? ==> obj.inner in fns && fns[obj.inner].User?)
      modifies this`fns, this`free
      ensures View() == Alloc(old(View()), obj) && f == old(free)
    {
      f := free;
      fns := fns[f := obj];
      free := free + 1;
    }

    method FunctionClone(f: FnId, internal: bool) returns (clone: FnId)
      requires Valid(View()) && f in fns
      modifies this`fns, this`free
      ensures (View(), clone) == Clone(old(View()), f, internal)
    {
      assert Known(View(), f);
      var asAlias := fns[f].User? && internal;
      clone := AllocFunction(ClearObj(fns[f]));
      if asAlias {
        clone := AllocFunction(Alias(clone));
      }
    }

    method FetchFunction(name: Name, change: bool) returns (fe: Option<FnId>)
      requires Valid(View())
      modifies this`fns, this`free, this`replacedInternal
      ensures (View(), fe) == Fetch(old(View()), name, change)
    {
      var n := Lower(name);
      if n !in functionTable { return None; }
      var f := functionTable[n];
      if !fns[f].User? && !internalOverride { return None; }
      if !fns[f].User? && change {
        if n !in replacedInternal {
          assert Known(View(), f);
          var copy := FunctionClone(f, true);
          replacedInternal := replacedInternal[n := copy];
        }
      }
      fe := Some(f);
    }

    method AddToMisplaced(f: FnId, n: Name)
      requires Valid(View()) && f in fns
      modifies this`misplacedInternal
      ensures View() == Misplace(old(View()), f, n)
    {
      if !fns[f].User? {
        misplacedInternal := misplacedInternal + [n];
      }
    }

    // -- the operations

    method FunctionAdd(name: Name, src: FnId) returns (ok: bool)
      requires Valid(View()) && src in fns
      modifies this
      ensures (View(), ok) == Add(old(View()), name, src)
    {
      if name == "" { return false; }
      var n := Lower(name);
      if n in functionTable { return false; }
      var f := FunctionClone(src, n in replacedInternal);
      functionTable := functionTable[n := f];
      ok := true;
    }

    method FunctionRedefine(name: Name, src: FnId) returns (ok: bool)
      requires Valid(View()) && src in fns
      modifies this
      ensures (View(), ok) == Redefine(old(View()), name, src)
    {
      if name == "" { return false; }
      var orig := FetchFunction(name, true);
      if orig.None? { return false; }
      var n := Lower(name);
      var f := FunctionClone(src, !fns[orig.value].User?);
      ClearAllFunctionsRuntimeCache();
      FixAllHardcodedStackSizes(n, f);
      functionTable := functionTable[n := f];
      ok := true;
    }

    method FunctionRemove(name: Name) returns (ok: bool)
      requires Valid(View())
      modifies this
      ensures (View(), ok) == Remove(old(View()), name)
    {
      var fe := FetchFunction(name, true);
      if fe.None? { return false; }
      functionTable := functionTable - {Lower(name)};
      ClearAllFunctionsRuntimeCache();
      ok := true;
    }

    method FunctionRename(source: Name, target: Name) returns (ok: bool)
      requires Valid(View())
      modifies this
      ensures (View(), ok) == Rename(old(View()), source, target)
    {
      var b := Lower(target);
      if b in functionTable { return false; }
      var fe := FetchFunction(source, true);
      if fe.None? { return false; }
      var f := MovedFunction(fe.value, b in replacedInternal);
      functionTable := functionTable - {Lower(source)};
      functionTable := functionTable[b := f];
      SettleRenamed(b, f);
      ok := true;
    }

    method MovedFunction(sfe: FnId, internal: bool) returns (f: FnId)
      requires Valid(View()) && sfe in fns
      modifies this`fns, this`free
      ensures (View(), f) == Moved(old(View()), sfe, internal)
    {
      f := sfe;
      if fns[f].User? {
        f := FunctionClone(f, internal);
      } else if !internal && fns[f].Alias? {
        f := fns[f].inner;
      }
    }

    method SettleRenamed(b: Name, f: FnId)
      requires Valid(View()) && f in fns
      modifies this
      ensures View() == Settle(old(View()), b, f)
    {
      FixAllHardcodedStackSizes(b, f);
      AddToMisplaced(f, b);
      ClearAllFunctionsRuntimeCache();
    }

    method FunctionCopy(source: Name, target: Name) returns (ok: bool)
      requires Valid(View())
      modifies this
      ensures (View(), ok) == Copy(old(View()), source, target)
    {
      var b := Lower(target);
      if b in functionTable { return false; }
      var sfe := FetchFunction(source, false);
      if sfe.None? { return false; }
      var f;
      if fns[sfe.value].User? {
        f := FunctionClone(sfe.value, false);
      } else {
        misplacedInternal := misplacedInternal + [b];
        f := FunctionClone(sfe.value, true);
      }
      AddToMisplaced(f, b);
      functionTable := functionTable[b := f];
      ok := true;
    }

    /** The part of PHP_RSHUTDOWN that undoes changes to internal functions. */
    method RequestShutdown(fpm: bool)
      modifies this
      ensures View() == Shutdown(old(View()), fpm)
    {
      for j := 0 to |misplacedInternal|
        invariant View() == old(View()).(table := functionTable)
        invariant Wipe(functionTable, misplacedInternal[j..]) == Wipe(old(functionTable), misplacedInternal)
      {
        assert misplacedInternal[j..][1..] == misplacedInternal[j + 1..];
        if misplacedInternal[j] != "" {
          functionTable := functionTable - {misplacedInternal[j]};
        }
      }
      misplacedInternal := [];
      if fpm {
        RestoreReplaced();
      }
    }

    method RestoreReplaced()
      modifies this`functionTable, this`replacedInternal
      ensures functionTable == Restored(old(functionTable), old(replacedInternal)) && replacedInternal == map[]
    {
      var todo := replacedInternal.Keys;
      while todo != {}
        invariant unchanged(`replacedInternal) && todo <= replacedInternal.Keys
        invariant forall n :: RestoredAt(old(functionTable), replacedInternal, todo, functionTable, n)
        decreases |todo|
      {
        var key :| key in todo;
        ghost var before, rest := functionTable, todo;
        todo := todo - {key};
        if key != "" {
          functionTable := functionTable[key := replacedInternal[key]];
        }
        forall n ensures RestoredAt(old(functionTable), replacedInternal, todo, functionTable, n) {
          assert RestoredAt(old(functionTable), replacedInternal, rest, before, n);
        }
      }
      RestoredAll(old(functionTable), replacedInternal, functionTable);
      replacedInternal := map[];
    }
  }

  /** What name n is bound to when the functions replaced under the names of `todo` are still to be restored. */
  predicate RestoredAt(table: map<Name, FnId>, replaced: map<Name, FnId>, todo: set<Name>, now: map<Name, FnId>,
                       n: Name) {
    Find(now, n) == if n in replaced && n !in todo && n != "" then Some(replaced[n]) else Find(table, n)
  }

  lemma RestoredAll(table: map<Name, FnId>, replaced: map<Name, FnId>, now: map<Name, FnId>)
    requires forall n :: RestoredAt(table, replaced, {}, now, n)
    ensures now == Restored(table, replaced)
  {
    forall n ensures Find(now, n) == Find(Restored(table, replaced), n) {
      assert RestoredAt(table, replaced, {}, now, n);
    }
    forall n ensures n in now <==> n in Restored(table, replaced) {
      assert (n in now) == Find(now, n).Some?;
    }
    forall n | n in now ensures now[n] == Restored(table, replaced)[n] {
      assert Find(now, n) == Some(now[n]);
    }
  }
}
