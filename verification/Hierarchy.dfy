/**
 * The class table as a value: every class holds a flattened method table and
 * cached magic-method slots.  This module states what one propagation pass of
 * runkit_methods.c does to the whole table; MethodTables.dfy proves that the
 * mutual recursion over class objects does exactly that.
 */
module Hierarchy {
  import opened Wrappers
  import ConstantArrays

  datatype Magic =
    | Get | Set | Unset | Isset | Call | CallStatic | ToString | Clone
    | Destructor | Constructor | DebugInfo | Serialize | Unserialize

  /** A class, by the interned lower-case name it is registered under. */
  type ClassId = nat

  /** A lower-case method name: one of the magic names, or any other interned string. */
  datatype Name = Special(slot: Magic) | Plain(handle: nat)

  /** A zend_function.  `id` is the pointer, `scope` the class that defines it. */
  datatype Func = Func(id: nat, name: Name, scope: ClassId, body: nat, user: bool)

  type Table = map<Name, Func>
  type Slots = map<Magic, Func>

  datatype Kind = UserClass | Interface | InternalClass

  datatype Access = Public | Protected | PrivateToClass

  /** A zend_class_constant; `definer` is its class entry. */
  datatype Const = Const(value: ConstantArrays.Zval, access: Access, definer: ClassId, enumCase: bool)

  datatype Class = Class(kind: Kind, parent: Option<ClassId>, methods: Table, slots: Slots, guards: bool,
                         constants: map<string, Const>)

  /** EG(class_table). */
  type Forest = map<ClassId, Class>

  // ----- magic names and slots

  function MagicName(k: Magic): Name {
    Special(k)
  }

  /** The slot PHP_RUNKIT_ADD_MAGIC_METHOD picks. */
  function MagicOf(name: Name): Option<Magic> {
    if name.Special? then Some(name.slot) else None
  }

  /** Slots whose presence needs ZEND_ACC_USE_GUARDS on the class. */
  predicate NeedsGuards(k: Magic) {
    k.Get? || k.Set? || k.Unset? || k.Isset?
  }

  /** Slot k points at fe in the parent and at orig (NULL when None) in the class. */
  predicate SlotFollows(k: Magic, own: Slots, up: Slots, fe: Func, orig: Option<Func>) {
    Find(own, k) == orig && Find(up, k) == Some(fe)
  }

  /** The slot the else-if chain of php_runkit_inherit_magic picks. */
  function InheritedSlot(own: Slots, up: Slots, fe: Func, orig: Option<Func>): (r: Option<Magic>)
    ensures r.Some? ==> SlotFollows(r.value, own, up, fe, orig)
  {
    if SlotFollows(Get, own, up, fe, orig) then Some(Get)
    else if SlotFollows(Set, own, up, fe, orig) then Some(Set)
    else if SlotFollows(Unset, own, up, fe, orig) then Some(Unset)
    else if SlotFollows(Isset, own, up, fe, orig) then Some(Isset)
    else if SlotFollows(Call, own, up, fe, orig) then Some(Call)
    else if SlotFollows(CallStatic, own, up, fe, orig) then Some(CallStatic)
    else if SlotFollows(ToString, own, up, fe, orig) then Some(ToString)
    else if SlotFollows(Clone, own, up, fe, orig) then Some(Clone)
    else if SlotFollows(Destructor, own, up, fe, orig) then Some(Destructor)
    else if SlotFollows(Constructor, own, up, fe, orig) then Some(Constructor)
    else if SlotFollows(DebugInfo, own, up, fe, orig) then Some(DebugInfo)
    else if SlotFollows(Serialize, own, up, fe, orig) then Some(Serialize)
    else if SlotFollows(Unserialize, own, up, fe, orig) then Some(Unserialize)
    else None
  }

  /** The chain misses no slot. */
  lemma InheritedSlotComplete(k: Magic, own: Slots, up: Slots, fe: Func, orig: Option<Func>)
    requires SlotFollows(k, own, up, fe, orig)
    ensures InheritedSlot(own, up, fe, orig).Some?
  {
    match k {
      case Get => case Set => case Unset => case Isset => case Call => case CallStatic =>
      case ToString => case Clone => case Destructor => case Constructor =>
      case DebugInfo => case Serialize => case Unserialize =>
    }
  }

  predicate SlotHolds(k: Magic, slots: Slots, fe: Func) {
    Find(slots, k) == Some(fe)
  }

  /** The slot the else-if chain of PHP_RUNKIT_DEL_MAGIC_METHOD picks. */
  function HoldingSlot(slots: Slots, fe: Func): (r: Option<Magic>)
    ensures r.Some? ==> SlotHolds(r.value, slots, fe)
  {
    if SlotHolds(Constructor, slots, fe) then Some(Constructor)
    else if SlotHolds(Destructor, slots, fe) then Some(Destructor)
    else if SlotHolds(Get, slots, fe) then Some(Get)
    else if SlotHolds(Set, slots, fe) then Some(Set)
    else if SlotHolds(Unset, slots, fe) then Some(Unset)
    else if SlotHolds(Isset, slots, fe) then Some(Isset)
    else if SlotHolds(Call, slots, fe) then Some(Call)
    else if SlotHolds(CallStatic, slots, fe) then Some(CallStatic)
    else if SlotHolds(ToString, slots, fe) then Some(ToString)
    else if SlotHolds(DebugInfo, slots, fe) then Some(DebugInfo)
    else if SlotHolds(Clone, slots, fe) then Some(Clone)
    else if SlotHolds(Serialize, slots, fe) then Some(Serialize)
    else if SlotHolds(Unserialize, slots, fe) then Some(Unserialize)
    else None
  }

  lemma HoldingSlotComplete(k: Magic, slots: Slots, fe: Func)
    requires SlotHolds(k, slots, fe)
    ensures HoldingSlot(slots, fe).Some?
  {
    match k {
      case Get => case Set => case Unset => case Isset => case Call => case CallStatic =>
      case ToString => case Clone => case Destructor => case Constructor =>
      case DebugInfo => case Serialize => case Unserialize =>
    }
  }

  // ----- one class

  function Put(c: Class, n: Name, fe: Func): Class {
    c.(methods := c.methods[n := fe])
  }

  function Drop(c: Class, n: Name): Class {
    c.(methods := c.methods - {n})
  }

  function WithSlot(c: Class, k: Magic, fe: Func): Class {
    c.(slots := c.slots[k := fe], guards := c.guards || NeedsGuards(k))
  }

  function WithConst(c: Class, name: string, k: Const): Class {
    c.(constants := c.constants[name := k])
  }

  /** PHP_RUNKIT_ADD_MAGIC_METHOD: a set constructor slot is kept unless it holds orig. */
  function AddMagic(c: Class, n: Name, fe: Func, orig: Option<Func>): Class {
    match MagicOf(n)
    case None => c
    case Some(k) =>
      if k.Constructor? && k in c.slots && Some(c.slots[k]) != orig then c else WithSlot(c, k, fe)
  }

  /** PHP_RUNKIT_DEL_MAGIC_METHOD. */
  function DelMagic(c: Class, fe: Func): Class {
    match HoldingSlot(c.slots, fe)
    case None => c
    case Some(k) => c.(slots := c.slots - {k})
  }

  /** php_runkit_inherit_magic; `up` is the parent's slots. */
  function InheritMagic(c: Class, up: Slots, fe: Func, orig: Option<Func>): Class {
    match InheritedSlot(c.slots, up, fe, orig)
    case None => c
    case Some(k) => WithSlot(c, k, fe)
  }

  // ----- the parent relation

  /** Every parent is in the table, and ranks grow from parent to child. */
  ghost predicate Ranked(f: Forest, rank: map<ClassId, nat>) {
    && rank.Keys == f.Keys
    && forall c | c in f && f[c].parent.Some? ::
         f[c].parent.value in f && rank[f[c].parent.value] < rank[c]
  }

  /** c is a proper descendant of top. */
  ghost predicate Under(f: Forest, rank: map<ClassId, nat>, c: ClassId, top: ClassId)
    requires Ranked(f, rank) && c in f
    decreases rank[c]
  {
    f[c].parent.Some? && (f[c].parent.value == top || Under(f, rank, f[c].parent.value, top))
  }

  ghost predicate SameParents(f: Forest, g: Forest) {
    f.Keys == g.Keys && forall c | c in f :: f[c].parent == g[c].parent && f[c].kind == g[c].kind
  }

  // ----- the propagation passes

  /** php_runkit_update_children_methods rewrites c only where this holds; it visits the subclasses in any case. */
  predicate Open(c: Class, n: Name, ancestor: ClassId) {
    n in c.methods ==> c.methods[n].scope == ancestor
  }

  datatype Change = Change(ancestor: ClassId, name: Name, fe: Func, orig: Option<Func>)

  /** What the update pass below `top` leaves in class c. */
  ghost function Updated(f: Forest, rank: map<ClassId, nat>, top: ClassId, ch: Change, c: ClassId): Class
    requires Ranked(f, rank) && c in f
    decreases rank[c]
  {
    if Under(f, rank, c, top) && Open(f[c], ch.name, ch.ancestor) then
      var p := f[c].parent.value;
      InheritMagic(Put(f[c], ch.name, ch.fe), Updated(f, rank, top, ch, p).slots, ch.fe, ch.orig)
    else f[c]
  }

  /** The class table after php_runkit_update_children_methods_foreach(.., ancestor, top, ..). */
  ghost function UpdateBelow(f: Forest, rank: map<ClassId, nat>, top: ClassId, ch: Change): Forest
    requires Ranked(f, rank)
  {
    map c | c in f :: Updated(f, rank, top, ch, c)
  }

  /** php_runkit_clean_children_methods reaches c: every step down to it was inherited from `ancestor`. */
  ghost predicate Cleaned(f: Forest, rank: map<ClassId, nat>, top: ClassId, ancestor: ClassId, n: Name, c: ClassId)
    requires Ranked(f, rank) && c in f
    decreases rank[c]
  {
    && f[c].parent.Some?
    && n in f[c].methods && f[c].methods[n].scope == ancestor
    && (f[c].parent.value == top || Cleaned(f, rank, top, ancestor, n, f[c].parent.value))
  }

  ghost function CleanedClass(f: Forest, rank: map<ClassId, nat>, top: ClassId, ancestor: ClassId, n: Name, orig: Func,
                              c: ClassId): Class
    requires Ranked(f, rank) && c in f
  {
    if Cleaned(f, rank, top, ancestor, n, c) then DelMagic(Drop(f[c], n), orig) else f[c]
  }

  /** The class table after php_runkit_clean_children_methods_foreach(.., ancestor, top, ..). */
  ghost function CleanBelow(f: Forest, rank: map<ClassId, nat>, top: ClassId, ancestor: ClassId, n: Name,
                            orig: Func): Forest
    requires Ranked(f, rank)
  {
    map c | c in f :: CleanedClass(f, rank, top, ancestor, n, orig, c)
  }
}
