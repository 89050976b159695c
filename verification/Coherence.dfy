/**
 * Flattened tables against the simple reading "walk up the parents to the
 * nearest class that defines the method", and the effect of one propagation
 * pass on that agreement.
 */
module Coherence {
  import opened Wrappers
  import opened Hierarchy

  /** The entry the parent offers for n. */
  function Inherited(f: Forest, c: ClassId, n: Name): Option<Func>
    requires c in f
  {
    if f[c].parent.Some? && f[c].parent.value in f then Find(f[f[c].parent.value].methods, n) else None
  }

  predicate Own(f: Forest, c: ClassId, n: Name)
    requires c in f
  {
    n in f[c].methods && f[c].methods[n].scope == c
  }

  /** The entry is the class's own, or the identical pointer its parent holds. */
  predicate FlatAt(f: Forest, c: ClassId, n: Name)
    requires c in f
  {
    Own(f, c, n) || Find(f[c].methods, n) == Inherited(f, c, n)
  }

  ghost predicate FlatFor(f: Forest, n: Name) {
    forall c | c in f :: FlatAt(f, c, n)
  }

  ghost predicate Flat(f: Forest) {
    forall n :: FlatFor(f, n)
  }

  /** The simple specification: the nearest definer on the way up. */
  ghost function NearestDefiner(f: Forest, rank: map<ClassId, nat>, c: ClassId, n: Name): Option<Func>
    requires Ranked(f, rank) && c in f
    decreases rank[c]
  {
    if Own(f, c, n) then Some(f[c].methods[n])
    else if f[c].parent.None? then None
    else NearestDefiner(f, rank, f[c].parent.value, n)
  }

  lemma {:induction false} FlatGivesNearest(f: Forest, rank: map<ClassId, nat>, c: ClassId, n: Name)
    requires Ranked(f, rank) && FlatFor(f, n) && c in f
    ensures Find(f[c].methods, n) == NearestDefiner(f, rank, c, n)
    decreases rank[c]
  {
    assert FlatAt(f, c, n);
    if !Own(f, c, n) && f[c].parent.Some? {
      FlatGivesNearest(f, rank, f[c].parent.value, n);
    }
  }

  /** A table is flat for n exactly when every lookup of n finds the nearest definer. */
  lemma FlatIffNearest(f: Forest, rank: map<ClassId, nat>, n: Name)
    requires Ranked(f, rank)
    ensures FlatFor(f, n) <==> forall c | c in f :: Find(f[c].methods, n) == NearestDefiner(f, rank, c, n)
  {
    if FlatFor(f, n) {
      forall c | c in f ensures Find(f[c].methods, n) == NearestDefiner(f, rank, c, n) {
        FlatGivesNearest(f, rank, c, n);
      }
    }
  }

  // ----- the parent relation

  lemma UnderRank(f: Forest, rank: map<ClassId, nat>, c: ClassId, top: ClassId)
    requires Ranked(f, rank) && c in f && top in f && Under(f, rank, c, top)
    ensures rank[top] < rank[c]
    decreases rank[c]
  {
    if f[c].parent.value != top {
      UnderRank(f, rank, f[c].parent.value, top);
    }
  }

  lemma NotUnderItself(f: Forest, rank: map<ClassId, nat>, top: ClassId)
    requires Ranked(f, rank) && top in f
    ensures !Under(f, rank, top, top)
  {
    if Under(f, rank, top, top) {
      UnderRank(f, rank, top, top);
    }
  }

  lemma {:induction false} SameUnder(f: Forest, g: Forest, rank: map<ClassId, nat>, c: ClassId, top: ClassId)
    requires Ranked(f, rank) && SameParents(f, g) && c in f
    ensures Ranked(g, rank)
    ensures Under(f, rank, c, top) == Under(g, rank, c, top)
    decreases rank[c]
  {
    if f[c].parent.Some? {
      SameUnder(f, g, rank, f[c].parent.value, top);
    }
  }

  // ----- where entries come from in a flat forest

  /** The scope of an entry is the class itself or one above it, and that class holds the same entry. */
  lemma {:induction false} ScopeAbove(f: Forest, rank: map<ClassId, nat>, c: ClassId, n: Name)
    requires Ranked(f, rank) && FlatFor(f, n) && c in f && n in f[c].methods
    ensures var s := f[c].methods[n].scope;
            && s in f && rank[s] <= rank[c] && (s == c || Under(f, rank, c, s))
            && n in f[s].methods && f[s].methods[n] == f[c].methods[n]
    decreases rank[c]
  {
    assert FlatAt(f, c, n);
    if !Own(f, c, n) {
      ScopeAbove(f, rank, f[c].parent.value, n);
    }
  }

  /** Below top, an entry whose scope is that of top's entry is top's entry, inherited step by step. */
  lemma {:induction false} SameAsTop(f: Forest, rank: map<ClassId, nat>, top: ClassId, n: Name, c: ClassId)
    requires Ranked(f, rank) && FlatFor(f, n) && c in f && top in f && Under(f, rank, c, top)
    requires n in f[top].methods && n in f[c].methods && f[c].methods[n].scope == f[top].methods[n].scope
    ensures f[c].methods[n] == f[top].methods[n]
    ensures Cleaned(f, rank, top, f[top].methods[n].scope, n, c)
    decreases rank[c]
  {
    var p := f[c].parent.value;
    UnderRank(f, rank, c, top);
    ScopeAbove(f, rank, top, n);
    assert FlatAt(f, c, n);
    if p != top {
      SameAsTop(f, rank, top, n, p);
    }
  }

  /** Every class other than top agrees with its parent about n. */
  ghost predicate FlatElsewhere(f: Forest, top: ClassId, n: Name) {
    forall c | c in f && c != top :: FlatAt(f, c, n)
  }

  /** A class below top that lacks n shows that top lacks it. */
  lemma {:induction false} NoneAbove(f: Forest, rank: map<ClassId, nat>, top: ClassId, n: Name, c: ClassId)
    requires Ranked(f, rank) && FlatElsewhere(f, top, n) && c in f && top in f && Under(f, rank, c, top)
    requires n !in f[c].methods
    ensures n !in f[top].methods
    decreases rank[c]
  {
    NotUnderItself(f, rank, top);
    assert FlatAt(f, c, n);
    if f[c].parent.value != top {
      NoneAbove(f, rank, top, n, f[c].parent.value);
    }
  }

  // ----- the update pass keeps flatness

  /** g is f with fe stored under n in top. */
  ghost predicate Stored(f: Forest, g: Forest, top: ClassId, n: Name, fe: Func) {
    && top in f && SameParents(f, g)
    && (forall c | c in f && c != top :: g[c] == f[c])
    && g[top].methods == f[top].methods[n := fe]
  }

  /** The ancestor is not below top, and there only the entry being replaced has its scope. */
  ghost predicate Fits(f: Forest, rank: map<ClassId, nat>, top: ClassId, ch: Change)
    requires Ranked(f, rank)
  {
    && top in f && ch.orig == Find(f[top].methods, ch.name)
    && (ch.orig.Some? ==> ch.orig.value.scope == ch.ancestor)
    && !(ch.ancestor in f && Under(f, rank, ch.ancestor, top))
    && forall c | c in f && Under(f, rank, c, top) && ch.name in f[c].methods
         && f[c].methods[ch.name].scope == ch.ancestor :: Some(f[c].methods[ch.name]) == ch.orig
  }

  /** Redefining hands the pass the scope of the old entry; adding a new name hands it the class itself. */
  lemma ScopeFits(f: Forest, rank: map<ClassId, nat>, top: ClassId, ch: Change)
    requires Ranked(f, rank) && FlatFor(f, ch.name) && top in f && ch.orig == Find(f[top].methods, ch.name)
    requires ch.ancestor == if ch.orig.Some? then ch.orig.value.scope else top
    ensures Fits(f, rank, top, ch)
  {
    var n := ch.name;
    NotUnderItself(f, rank, top);
    if ch.orig.Some? {
      ScopeAbove(f, rank, top, n);
      if Under(f, rank, ch.ancestor, top) {
        UnderRank(f, rank, ch.ancestor, top);
      }
    }
    forall c | c in f && Under(f, rank, c, top) && n in f[c].methods && f[c].methods[n].scope == ch.ancestor
      ensures Some(f[c].methods[n]) == ch.orig
    {
      ScopeAbove(f, rank, c, n);
      if ch.orig.Some? {
        SameAsTop(f, rank, top, n, c);
      }
    }
  }

  /** Every class the pass rewrites held `orig` (or nothing) before, and its parent is rewritten too. */
  lemma OpenHoldsOrig(f: Forest, g: Forest, rank: map<ClassId, nat>, top: ClassId, ch: Change, c: ClassId)
    requires Ranked(f, rank) && Ranked(g, rank) && FlatElsewhere(f, top, ch.name) && Stored(f, g, top, ch.name, ch.fe)
    requires Fits(f, rank, top, ch)
    requires c in g && Under(g, rank, c, top) && Open(g[c], ch.name, ch.ancestor)
    ensures c != top && Find(f[c].methods, ch.name) == ch.orig
    ensures g[c].parent.value != top ==> Open(g[g[c].parent.value], ch.name, ch.ancestor)
  {
    NotUnderItself(g, rank, top);
    SameUnder(f, g, rank, c, top);
    assert FlatAt(f, c, ch.name);
    if ch.name !in f[c].methods {
      NoneAbove(f, rank, top, ch.name, c);
    }
  }

  /** The tables after the pass: classes below top that were open hold fe, nothing else moved. */
  ghost predicate TablesUpdated(g: Forest, rank: map<ClassId, nat>, top: ClassId, ch: Change, h: Forest)
    requires Ranked(g, rank)
  {
    && SameParents(g, h)
    && forall c | c in g ::
         h[c].methods == if Under(g, rank, c, top) && Open(g[c], ch.name, ch.ancestor)
                         then g[c].methods[ch.name := ch.fe] else g[c].methods
  }

  lemma UpdateBelowTables(g: Forest, rank: map<ClassId, nat>, top: ClassId, ch: Change)
    requires Ranked(g, rank)
    ensures TablesUpdated(g, rank, top, ch, UpdateBelow(g, rank, top, ch))
  {
  }

  lemma UpdateKeepsFlatAt(f: Forest, g: Forest, rank: map<ClassId, nat>, top: ClassId, ch: Change, h: Forest,
                          c: ClassId)
    requires Ranked(f, rank) && Ranked(g, rank) && FlatElsewhere(f, top, ch.name) && Stored(f, g, top, ch.name, ch.fe)
    requires Fits(f, rank, top, ch) && TablesUpdated(g, rank, top, ch, h)
    requires c in g && c != top
    ensures FlatAt(h, c, ch.name)
  {
    var n := ch.name;
    assert FlatAt(f, c, n);
    NotUnderItself(g, rank, top);
    if g[c].parent.Some? && Under(g, rank, c, top) {
      var p := g[c].parent.value;
      SameUnder(f, g, rank, c, top);
      if Open(g[c], n, ch.ancestor) {
        OpenHoldsOrig(f, g, rank, top, ch, c);
      } else if p != top && Open(g[p], n, ch.ancestor) {
        OpenHoldsOrig(f, g, rank, top, ch, p);
      }
    }
  }

  /** The tables of f and h agree about n. */
  ghost predicate SameFor(f: Forest, h: Forest, n: Name) {
    SameParents(f, h) && forall c | c in f :: Find(f[c].methods, n) == Find(h[c].methods, n)
  }

  lemma SameForFlatAt(f: Forest, h: Forest, c: ClassId, n: Name)
    requires SameFor(f, h, n) && c in f
    ensures FlatAt(f, c, n) == FlatAt(h, c, n)
  {
    assert Find(f[c].methods, n) == Find(h[c].methods, n);
    if f[c].parent.Some? && f[c].parent.value in f {
      assert Find(f[f[c].parent.value].methods, n) == Find(h[f[c].parent.value].methods, n);
    }
  }

  lemma OtherNamesStay(f: Forest, g: Forest, rank: map<ClassId, nat>, top: ClassId, ch: Change, h: Forest, n: Name)
    requires Ranked(g, rank) && Stored(f, g, top, ch.name, ch.fe) && TablesUpdated(g, rank, top, ch, h)
    requires n != ch.name
    ensures SameFor(f, h, n)
  {
  }

  /** The pass leaves every class but top in agreement with its parent, for every name. */
  lemma UpdateKeepsFlat(f: Forest, g: Forest, rank: map<ClassId, nat>, top: ClassId, ch: Change, n: Name)
    requires Ranked(f, rank) && Ranked(g, rank) && Stored(f, g, top, ch.name, ch.fe)
    requires FlatElsewhere(f, top, ch.name) && FlatElsewhere(f, top, n) && Fits(f, rank, top, ch)
    ensures FlatElsewhere(UpdateBelow(g, rank, top, ch), top, n)
  {
    var h := UpdateBelow(g, rank, top, ch);
    UpdateBelowTables(g, rank, top, ch);
    if n != ch.name {
      OtherNamesStay(f, g, rank, top, ch, h, n);
    }
    forall c | c in h && c != top ensures FlatAt(h, c, n) {
      if n == ch.name {
        UpdateKeepsFlatAt(f, g, rank, top, ch, h, c);
      } else {
        SameForFlatAt(f, h, c, n);
      }
    }
  }

  // ----- names, slots, guards

  ghost predicate NamesMatch(f: Forest) {
    forall c, n | c in f && n in f[c].methods :: f[c].methods[n].name == n
  }

  predicate SlotAt(c: Class, k: Magic) {
    Find(c.slots, k) == Find(c.methods, MagicName(k))
  }

  /** Every cached slot is the table entry of its magic name, or NULL when there is none. */
  ghost predicate SlotsIndexed(f: Forest) {
    forall c, k | c in f :: SlotAt(f[c], k)
  }

  predicate GuardedSlot(c: Class, k: Magic) {
    k in c.slots && NeedsGuards(k) ==> c.guards
  }

  ghost predicate GuardsSet(f: Forest) {
    forall c, k | c in f :: GuardedSlot(f[c], k)
  }

  /** Installing fe under its own name in an indexed class and running the add chain keeps the index. */
  lemma AddMagicIndexes(c: Class, n: Name, fe: Func, k: Magic)
    requires forall j :: SlotAt(c, j)
    ensures SlotAt(AddMagic(Put(c, n, fe), n, fe, Find(c.methods, n)), k)
  {
    assert SlotAt(c, k);
    if MagicOf(n).Some? {
      assert SlotAt(c, MagicOf(n).value);
    }
  }

  /** Dropping an entry and running the delete chain on it keeps the index. */
  lemma DelMagicIndexes(c: Class, n: Name, k: Magic)
    requires n in c.methods && c.methods[n].name == n
    requires forall m | m in c.methods :: c.methods[m].name == m
    requires forall j :: SlotAt(c, j)
    ensures SlotAt(DelMagic(Drop(c, n), c.methods[n]), k)
  {
    var fe := c.methods[n];
    assert SlotAt(c, k);
    match HoldingSlot(c.slots, fe) {
      case None =>
        if MagicOf(n).Some? {
          assert SlotAt(c, MagicOf(n).value);
          HoldingSlotComplete(MagicOf(n).value, c.slots, fe);
        }
      case Some(j) =>
        assert SlotAt(c, j);
    }
  }

  /** In an inheriting class the chain moves exactly the slot of fe's name. */
  lemma InheritMagicIndexes(c: Class, up: Class, ch: Change, k: Magic)
    requires ch.fe.name == ch.name
    requires forall m | m in up.methods :: up.methods[m].name == m
    requires (forall j :: SlotAt(c, j)) && (forall j :: SlotAt(up, j))
    requires Find(c.methods, ch.name) == ch.orig && Find(up.methods, ch.name) == Some(ch.fe)
    ensures SlotAt(InheritMagic(Put(c, ch.name, ch.fe), up.slots, ch.fe, ch.orig), k)
  {
    var n := ch.name;
    assert SlotAt(c, k);
    match InheritedSlot(c.slots, up.slots, ch.fe, ch.orig) {
      case None =>
        if MagicOf(n).Some? {
          var j := MagicOf(n).value;
          assert SlotAt(c, j) && SlotAt(up, j);
          InheritedSlotComplete(j, c.slots, up.slots, ch.fe, ch.orig);
        }
      case Some(j) =>
        assert SlotAt(up, j) && SlotAt(c, j);
    }
  }

  lemma {:induction false} UpdateKeepsSlots(f: Forest, g: Forest, rank: map<ClassId, nat>, top: ClassId, ch: Change,
                                           c: ClassId)
    requires Ranked(f, rank) && Ranked(g, rank) && FlatElsewhere(f, top, ch.name) && Stored(f, g, top, ch.name, ch.fe)
    requires Fits(f, rank, top, ch)
    requires NamesMatch(g) && SlotsIndexed(g) && ch.fe.name == ch.name && c in g
    ensures forall k :: SlotAt(UpdateBelow(g, rank, top, ch)[c], k)
    decreases rank[c]
  {
    if Under(g, rank, c, top) && Open(g[c], ch.name, ch.ancestor) {
      var p := g[c].parent.value;
      OpenHoldsOrig(f, g, rank, top, ch, c);
      UpdateKeepsSlots(f, g, rank, top, ch, p);
      UpdateBelowTables(g, rank, top, ch);
      NotUnderItself(g, rank, top);
      var up := UpdateBelow(g, rank, top, ch)[p];
      assert up == Updated(g, rank, top, ch, p);
      forall k ensures SlotAt(InheritMagic(Put(g[c], ch.name, ch.fe), up.slots, ch.fe, ch.orig), k) {
        assert forall j :: SlotAt(g[c], j);
        InheritMagicIndexes(g[c], up, ch, k);
      }
    }
  }

  lemma UpdateKeepsGuards(g: Forest, rank: map<ClassId, nat>, top: ClassId, ch: Change)
    requires Ranked(g, rank) && GuardsSet(g)
    ensures GuardsSet(UpdateBelow(g, rank, top, ch))
  {
    forall c, k | c in g ensures GuardedSlot(Updated(g, rank, top, ch, c), k) {
      assert GuardedSlot(g[c], k);
    }
  }

  lemma UpdateKeepsNames(g: Forest, rank: map<ClassId, nat>, top: ClassId, ch: Change)
    requires Ranked(g, rank) && NamesMatch(g) && ch.fe.name == ch.name
    ensures NamesMatch(UpdateBelow(g, rank, top, ch))
  {
    UpdateBelowTables(g, rank, top, ch);
  }

  /** Everything but flatness: names, slots and guard flags. */
  ghost predicate Indexed(f: Forest) {
    NamesMatch(f) && SlotsIndexed(f) && GuardsSet(f)
  }

  lemma UpdateKeepsIndex(f: Forest, g: Forest, rank: map<ClassId, nat>, top: ClassId, ch: Change)
    requires Ranked(f, rank) && Ranked(g, rank) && FlatElsewhere(f, top, ch.name) && Stored(f, g, top, ch.name, ch.fe)
    requires Fits(f, rank, top, ch) && Indexed(g) && ch.fe.name == ch.name
    ensures Indexed(UpdateBelow(g, rank, top, ch))
  {
    forall c, k | c in g ensures SlotAt(UpdateBelow(g, rank, top, ch)[c], k) {
      UpdateKeepsSlots(f, g, rank, top, ch, c);
    }
    UpdateKeepsGuards(g, rank, top, ch);
    UpdateKeepsNames(g, rank, top, ch);
  }

  /** The class that gets the new entry, after the add chain ran on it. */
  lemma InstallKeepsIndex(f: Forest, top: ClassId, n: Name, fe: Func)
    requires Indexed(f) && top in f && fe.name == n
    ensures Indexed(f[top := AddMagic(Put(f[top], n, fe), n, fe, Find(f[top].methods, n))])
  {
    var g := f[top := AddMagic(Put(f[top], n, fe), n, fe, Find(f[top].methods, n))];
    forall c, k | c in g ensures SlotAt(g[c], k) && GuardedSlot(g[c], k) {
      assert SlotAt(f[c], k) && GuardedSlot(f[c], k);
      if c == top {
        assert forall j :: SlotAt(f[top], j);
        AddMagicIndexes(f[top], n, fe, k);
      }
    }
  }
}
