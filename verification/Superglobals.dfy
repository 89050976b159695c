/**
 * The superglobals of runkit.c: the in-place scan of the runkit.superglobal
 * setting at request startup, and its undoing at shutdown.
 */
module Superglobals {
  import opened Wrappers

  type byte = x: int | 0 <= x < 256
  type Name = seq<byte>

  const COMMA: byte := 44
  const NUL: byte := 0

  // ----- the fields of a comma-separated list

  /** The position of the first c, or |s|. */
  function IndexOf(s: seq<byte>, c: byte): (k: nat)
    ensures k <= |s| && (k < |s| ==> s[k] == c) && forall i | 0 <= i < k :: s[i] != c
  {
    if s == [] || s[0] == c then 0 else 1 + IndexOf(s[1..], c)
  }

  function Split(s: seq<byte>): seq<Name>
    decreases |s|
  {
    var k := IndexOf(s, COMMA);
    if k == |s| then [s] else [s[..k]] + Split(s[k + 1..])
  }

  function JoinFields(fields: seq<Name>): seq<byte> {
    if fields == [] then []
    else if |fields| == 1 then fields[0]
    else fields[0] + [COMMA] + JoinFields(fields[1..])
  }

  predicate CommaFree(fields: seq<Name>) {
    forall i | 0 <= i < |fields| :: COMMA !in fields[i]
  }

  lemma {:induction false} SplitSpells(s: seq<byte>)
    ensures Split(s) != [] && CommaFree(Split(s)) && JoinFields(Split(s)) == s
    decreases |s|
  {
    var k := IndexOf(s, COMMA);
    if k < |s| {
      SplitSpells(s[k + 1..]);
      var fields := Split(s);
      assert fields[1..] == Split(s[k + 1..]);
      assert s == s[..k] + [COMMA] + s[k + 1..];
    }
  }

  lemma {:induction false} SplitUnique(s: seq<byte>, fields: seq<Name>)
    requires fields != [] && CommaFree(fields) && JoinFields(fields) == s
    ensures fields == Split(s)
    decreases |s|
  {
    FirstField(s, fields);
    if |fields| > 1 {
      forall i | 0 <= i < |fields[1..]| ensures COMMA !in fields[1..][i] { assert fields[1..][i] == fields[i + 1]; }
      SplitUnique(s[IndexOf(s, COMMA) + 1..], fields[1..]);
      assert fields == [fields[0]] + fields[1..];
    }
  }

  /** Comma-free fields that spell the string with commas between them: Split finds them, and there are no others. */
  lemma SplitIff(s: seq<byte>, fields: seq<Name>)
    ensures fields == Split(s) <==> fields != [] && CommaFree(fields) && JoinFields(fields) == s
  {
    SplitSpells(s);
    if fields != [] && CommaFree(fields) && JoinFields(fields) == s {
      SplitUnique(s, fields);
    }
  }

  /** The separator is the ASCII comma. */
  lemma CommaParts(a: seq<byte>, b: seq<byte>)
    requires ',' as int !in a && ',' as int !in b
    ensures Split(a) == [a] && Split(a + [',' as int] + b) == [a, b]
  {
    SplitIff(a, [a]);
    var fields := [a, b];
    assert fields[1..] == [b];
    SplitIff(a + [COMMA] + b, fields);
  }

  lemma FirstField(s: seq<byte>, fields: seq<Name>)
    requires fields != [] && JoinFields(fields) == s && COMMA !in fields[0]
    ensures |fields[0]| == IndexOf(s, COMMA) && fields[0] == s[..IndexOf(s, COMMA)]
    ensures if |fields| == 1 then IndexOf(s, COMMA) == |s|
            else IndexOf(s, COMMA) < |s| && JoinFields(fields[1..]) == s[IndexOf(s, COMMA) + 1..]
  {
    var k := IndexOf(s, COMMA);
    forall i | 0 <= i < |fields[0]| ensures s[i] == fields[0][i] && s[i] != COMMA {}
    assert |fields| > 1 ==> s[|fields[0]|] == COMMA;
    assert k == |fields[0]|;
    if |fields| > 1 { assert s[k + 1..] == JoinFields(fields[1..]); }
  }

  // ----- registration

  /** CG(auto_globals), each with its `armed` flag, and the list of those that are runkit's. */
  datatype State = State(autoGlobals: map<Name, bool>, registered: seq<Name>)

  function RegisterOne(st: State, name: Name): State {
    if name in st.autoGlobals then st
    else State(st.autoGlobals[name := false], st.registered + [name])
  }

  function RegisterFields(st: State, fields: seq<Name>): State
    decreases |fields|
  {
    if fields == [] then st
    else RegisterFields(if fields[0] == [] then st else RegisterOne(st, fields[0]), fields[1..])
  }

  function Unregister(autoGlobals: map<Name, bool>, names: seq<Name>): map<Name, bool> {
    if names == [] then autoGlobals else Unregister(autoGlobals - {names[0]}, names[1..])
  }

  lemma RegisterStep(st: State, field: Name, rest: seq<Name>)
    ensures RegisterFields(st, [field] + rest)
         == RegisterFields(if field == [] then st else RegisterOne(st, field), rest)
  {
    assert ([field] + rest)[1..] == rest;
  }

  lemma SplitStep(ini: seq<byte>, s: nat, p: nat)
    requires s <= p < |ini| && ini[p] == COMMA && forall i | s <= i < p :: ini[i] != COMMA
    ensures Split(ini[s..]) == [ini[s..p]] + Split(ini[p + 1..])
  {
    assert ini[s..][p - s] == COMMA;
    assert ini[s..][..p - s] == ini[s..p];
    assert ini[s..][p - s + 1..] == ini[p + 1..];
  }

  lemma SplitLast(ini: seq<byte>, s: nat)
    requires s <= |ini| && forall i | s <= i < |ini| :: ini[i] != COMMA
    ensures Split(ini[s..]) == [ini[s..]] + []
  {
    assert IndexOf(ini[s..], COMMA) == |ini| - s;
  }

  // ----- startup and shutdown

  class Request {
    var autoGlobals: map<Name, bool>
    var superglobals: seq<Name>

    function View(): State
      reads this
    {
      State(autoGlobals, superglobals)
    }

    constructor (autoGlobals: map<Name, bool>)
      ensures View() == State(autoGlobals, [])
    {
      this.autoGlobals, superglobals := autoGlobals, [];
    }

    method RegisterAutoGlobal(name: Name)
      modifies this
      ensures View() == RegisterOne(old(View()), name)
    {
      if name in autoGlobals { return; }
      autoGlobals := autoGlobals[name := false];
      superglobals := superglobals + [name];
    }

    /** strchr(p, c) on the NUL-terminated buffer; -1 stands for NULL. */
    static method StrChr(buffer: array<byte>, p: nat, ghost end: nat, c: byte) returns (found: int)
      requires p <= end < buffer.Length && buffer[end] == NUL && c != NUL
      requires forall i | p <= i < end :: buffer[i] != NUL
      ensures found == -1 || (p <= found < end && buffer[found] == c)
      ensures forall i | p <= i < (if found == -1 then end else found) :: buffer[i] != c
    {
      var i := p;
      while buffer[i] != NUL
        invariant p <= i <= end
        invariant forall j | p <= j < i :: buffer[j] != c
        decreases end - i
      {
        if buffer[i] == c { return i; }
        i := i + 1;
      }
      found := -1;
    }

    /** php_runkit_rinit_register_superglobals on a C string, scanning a copy and cutting it with NULs. */
    method RinitRegisterSuperglobals(ini: seq<byte>)
      requires NUL !in ini
      modifies this
      ensures View() == RegisterFields(State(old(autoGlobals), []), Split(ini))
    {
      superglobals := [];
      if |ini| == 0 {
        RegisterStep(View(), [], []);
        return;
      }
      var dup := new byte[|ini| + 1](i => if 0 <= i < |ini| then ini[i] else NUL);
      assert ini[0..] == ini;
      var s := 0;
      var p := StrChr(dup, s, |ini|, COMMA);
      while p != -1
        invariant 0 <= s <= |ini| && Scanned(dup, ini, s, p)
        invariant RegisterFields(View(), Split(ini[s..])) == RegisterFields(State(old(autoGlobals), []), Split(ini))
        decreases |ini| - s
      {
        s, p := NextField(dup, ini, s, p);
      }
      LastField(dup, ini, s);
    }

    /** The loop body: registers the field before the comma at p and finds the next comma. */
    method NextField(dup: array<byte>, ghost ini: seq<byte>, s: nat, p: nat) returns (s': nat, p': int)
      requires NUL !in ini && Scanned(dup, ini, s, p)
      modifies this, dup
      ensures s < s' <= |ini| && Scanned(dup, ini, s', p')
      ensures RegisterFields(View(), Split(ini[s'..])) == RegisterFields(old(View()), Split(ini[s..]))
    {
      SplitStep(ini, s, p);
      RegisterStep(View(), ini[s..p], Split(ini[p + 1..]));
      assert dup[s..p] == ini[s..p];
      s' := CutField(dup, s, p);
      p' := StrChr(dup, s', |ini|, COMMA);
    }

    /** What follows the last comma. */
    method LastField(dup: array<byte>, ghost ini: seq<byte>, s: nat)
      requires Scanned(dup, ini, s, -1)
      modifies this
      ensures View() == RegisterFields(old(View()), Split(ini[s..]))
    {
      SplitLast(ini, s);
      RegisterStep(View(), ini[s..], []);
      var len := dup.Length - 1 - s;
      if len != 0 {
        assert dup[s..s + len] == ini[s..];
        RegisterAutoGlobal(dup[s..s + len]);
      }
    }

    /** From s on the buffer still holds the setting, and p is its first comma there, or -1. */
    static predicate Scanned(dup: array<byte>, ini: seq<byte>, s: nat, p: int)
      reads dup
    {
      && dup.Length == |ini| + 1 && dup[|ini|] == NUL && s <= |ini| && (forall i | s <= i < |ini| :: dup[i] == ini[i])
      && (p == -1 || (s <= p < |ini| && ini[p] == COMMA))
      && forall i | s <= i < (if p == -1 then |ini| else p) :: ini[i] != COMMA
    }

    /** The loop body: registers the field between s and the comma at p, and returns where the next one starts. */
    method CutField(dup: array<byte>, s: nat, p: nat) returns (next: nat)
      requires s <= p < dup.Length
      modifies this, dup
      ensures next == p + 1 && forall i | p < i < dup.Length :: dup[i] == old(dup[i])
      ensures View() == if s == p then old(View()) else RegisterOne(old(View()), old(dup[s..p]))
    {
      if p - s != 0 {
        ghost var field := dup[s..p];
        dup[p] := NUL;
        assert dup[s..p] == field;
        RegisterAutoGlobal(dup[s..p]);
      }
      next := p + 1;
    }

    /** The superglobals' part of PHP_RSHUTDOWN. */
    method RshutdownSuperglobals()
      modifies this
      ensures View() == State(Unregister(old(autoGlobals), old(superglobals)), [])
    {
      for i := 0 to |superglobals|
        invariant superglobals == old(superglobals)
        invariant Unregister(autoGlobals, superglobals[i..]) == Unregister(old(autoGlobals), superglobals)
      {
        assert superglobals[i..][1..] == superglobals[i + 1..];
        autoGlobals := autoGlobals - {superglobals[i]};
      }
      superglobals := [];
    }
  }

  // ----- what was registered

  /** name is a non-empty field that was not known before. */
  predicate Wanted(autoGlobals: map<Name, bool>, fields: seq<Name>, name: Name) {
    name in fields && name != [] && name !in autoGlobals
  }

  function FirstAt(fields: seq<Name>, name: Name): nat {
    if fields == [] || fields[0] == name then 0 else 1 + FirstAt(fields[1..], name)
  }

  ghost predicate InOrder(fields: seq<Name>, names: seq<Name>) {
    forall i, j | 0 <= i < j < |names| :: FirstAt(fields, names[i]) < FirstAt(fields, names[j])
  }

  /** Exactly the wanted names, each once, in the order of their first occurrence. */
  ghost predicate RegisteredExactly(autoGlobals: map<Name, bool>, fields: seq<Name>, names: seq<Name>) {
    (forall n :: n in names <==> Wanted(autoGlobals, fields, n)) && InOrder(fields, names)
  }

  /** The names registered for the fields. */
  function Added(st: State, fields: seq<Name>): seq<Name>
    decreases |fields|
  {
    if fields == [] then []
    else if fields[0] == [] || fields[0] in st.autoGlobals then Added(st, fields[1..])
    else [fields[0]] + Added(RegisterOne(st, fields[0]), fields[1..])
  }

  lemma {:induction false} RegistersAdded(st: State, fields: seq<Name>)
    ensures RegisterFields(st, fields).registered == st.registered + Added(st, fields)
    decreases |fields|
  {
    if fields != [] {
      RegistersAdded(if fields[0] == [] then st else RegisterOne(st, fields[0]), fields[1..]);
    }
  }

  lemma {:induction false} AddedExactly(st: State, fields: seq<Name>)
    ensures RegisteredExactly(st.autoGlobals, fields, Added(st, fields))
    decreases |fields|
  {
    if fields != [] {
      var skip := fields[0] == [] || fields[0] in st.autoGlobals;
      var mid := if skip then st else RegisterOne(st, fields[0]);
      var rest := Added(mid, fields[1..]);
      AddedExactly(mid, fields[1..]);
      assert fields == [fields[0]] + fields[1..];
      forall n ensures n in Added(st, fields) <==> Wanted(st.autoGlobals, fields, n) {
        assert n in rest <==> Wanted(mid.autoGlobals, fields[1..], n);
      }
      forall n | n in rest ensures Shifted(fields, n) {
        assert Wanted(mid.autoGlobals, fields[1..], n);
      }
      AddedInOrder(fields, rest, if skip then [] else [fields[0]]);
      assert Added(st, fields) == (if skip then [] else [fields[0]]) + rest;
    }
  }

  predicate Shifted(fields: seq<Name>, n: Name) {
    fields != [] && FirstAt(fields, n) == 1 + FirstAt(fields[1..], n)
  }

  lemma AddedInOrder(fields: seq<Name>, rest: seq<Name>, head: seq<Name>)
    requires fields != [] && InOrder(fields[1..], rest)
    requires forall n | n in rest :: Shifted(fields, n)
    requires head == [] || head == [fields[0]]
    ensures InOrder(fields, head + rest)
  {
    forall i, j | 0 <= i < j < |head + rest|
      ensures FirstAt(fields, (head + rest)[i]) < FirstAt(fields, (head + rest)[j])
    {
      PairInOrder(fields, rest, head, i, j);
    }
  }

  lemma PairInOrder(fields: seq<Name>, rest: seq<Name>, head: seq<Name>, i: nat, j: nat)
    requires fields != [] && InOrder(fields[1..], rest) && (head == [] || head == [fields[0]])
    requires forall n | n in rest :: Shifted(fields, n)
    requires i < j < |head + rest|
    ensures FirstAt(fields, (head + rest)[i]) < FirstAt(fields, (head + rest)[j])
  {
    var b := j - |head|;
    assert (head + rest)[j] == rest[b] && Shifted(fields, rest[b]);
    if i < |head| {
      assert (head + rest)[i] == fields[0];
    } else {
      var a := i - |head|;
      assert (head + rest)[i] == rest[a] && Shifted(fields, rest[a]);
      assert FirstAt(fields[1..], rest[a]) < FirstAt(fields[1..], rest[b]);
    }
  }

  lemma {:induction false} RegisterAt(st: State, fields: seq<Name>, n: Name)
    ensures Find(RegisterFields(st, fields).autoGlobals, n)
         == if Wanted(st.autoGlobals, fields, n) then Some(false) else Find(st.autoGlobals, n)
    decreases |fields|
  {
    if fields != [] {
      RegisterAt(if fields[0] == [] then st else RegisterOne(st, fields[0]), fields[1..], n);
      assert fields == [fields[0]] + fields[1..];
    }
  }

  lemma {:induction false} UnregisterAt(autoGlobals: map<Name, bool>, names: seq<Name>, n: Name)
    ensures Find(Unregister(autoGlobals, names), n) == if n in names then None else Find(autoGlobals, n)
    decreases |names|
  {
    if names != [] {
      UnregisterAt(autoGlobals - {names[0]}, names[1..], n);
      assert names == [names[0]] + names[1..];
    }
  }

  /** Whatever the setting, shutdown gives auto_globals back as startup found it. */
  lemma ShutdownUndoesStartup(autoGlobals: map<Name, bool>, ini: seq<byte>)
    ensures var r := RegisterFields(State(autoGlobals, []), Split(ini));
            && RegisteredExactly(autoGlobals, Split(ini), r.registered)
            && Unregister(r.autoGlobals, r.registered) == autoGlobals
  {
    var st, fields := State(autoGlobals, []), Split(ini);
    var r := RegisterFields(st, fields);
    RegistersAdded(st, fields);
    AddedExactly(st, fields);
    assert r.registered == Added(st, fields);
    var back := Unregister(r.autoGlobals, r.registered);
    forall n ensures Find(back, n) == Find(autoGlobals, n) {
      UnregisterAt(r.autoGlobals, r.registered, n);
      RegisterAt(st, fields, n);
    }
    SameMap(back, autoGlobals);
  }

  lemma SameMap(a: map<Name, bool>, b: map<Name, bool>)
    requires forall n :: Find(a, n) == Find(b, n)
    ensures a == b
  {
    forall n ensures n in a <==> n in b { assert (n in a) == Find(a, n).Some?; }
    forall n | n in a ensures a[n] == b[n] { assert Find(a, n) == Some(a[n]); }
  }
}
