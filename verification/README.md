# A verified model of runkit7

runkit7 rewrites the live tables of a PHP engine: methods, functions, constants and superglobals. This
project models the parts of it where one rewrite must leave several derived structures consistent, follows
the branches for PHP 8.1 and later on 64-bit builds, and proves what they keep. It also models the master
of the parallel test runner in `ci/`.

`dafny verify dfyconfig.toml` checks everything.

## How the model is laid out

* **Class table.** `Hierarchy` is the class table as a value: every class has a flattened method table, a
  cached slot per magic name, the guard flag and its constants. `MethodTables` holds the same table as
  mutable class entries and the recursive passes over it, each with the C function's own branches; every
  method states its new table as a function of the old one. `MethodOps` has these functions for the five
  method operations, `Coherence` and `Sweeps` the theory of the passes and of scanning a subtree.
* **What the class table keeps.** `MethodRuns` defines a machine that stores only what each class declares
  and finds a method by walking up the parents; guarded runs of the engine refine it. `MethodGuards` proves
  for each operation exactly when the tables stay flat and the slots exact. `MethodEffects` says for every table
  which classes get, lose or keep which entry and slot in each operation. `MethodCaches` adds cached method lookups. `Adoption` and `ClassOps` model adopting and emancipating a class, and `ClassRuns` runs of all seven
  operations, in which the parent links change too.
* **Constants.** `ConstantArrays` validates and copies arrays in a memory with sharing and cycles;
  `ClassConstants` adds, removes and redefines class constants with the propagation to subclasses.
* **Functions.** `FunctionTable` models the function table with overridden internal functions, aliases,
  runtime caches, reserved stack sizes, the call stack and request shutdown; `FunctionRuns` and `FunctionCaches`
  prove what runs of the operations, with functions entered and left in between, keep, `FunctionCalls` when every
  call runs what the table says, and `FunctionNames` that every run refines a run of a dictionary from names to
  bodies. `FunctionSpelling` proves that names are compared without regard to ASCII case. `FunctionWitnesses` holds short runs into the states where something is not kept. `EngineCaches`
  joins function and class operations, calls and lookups in one run. `OpArrayClone`
  models cloning an op array by relocation.
* **Small scanners.** `Superglobals` (the in-place list parser and its undoing) and `ReturnType`.
* **Test scheduler.** `Scheduler` is the master's state and message handling, `SchedulerRuns` the system of
  master and workers with its safety and termination. `SchedulerOrder` proves the order of tests that carry the
  same key list, `SchedulerPairs` and `SchedulerOvertaking` the two directions of the exact condition on two
  tests.

A class hierarchy is acyclic when some `rank` maps every class above its parent; the proofs carry such a
rank and use it for termination. Function objects are compared as values that carry an identity, so equal
entries are the same pointer. Class names and the name constants the engine interns are identities too.

## What the model found

* Adding or copying a method over an inherited one leaves subclasses on the old method
  (`MethodGuards.AddOverInheritedGoesStale`), and a constructor over an inherited one leaves the slot on the old
  one even in a leaf class (`MethodGuards.AddKeepsInvIff`, `MethodGuards.ConstructorSlotGoesStale`); removing an
  entry the parent offers leaves a hole (`MethodGuards.RemoveLeavesHole`). `MethodGuards` states the exact
  conditions.
* A user function behind an alias is reached when caches are cleared only while it runs. One that has called
  another and returned keeps the other after its removal, and runs it when it is called again
  (`FunctionCaches.HiddenCacheGoesStale`; from every usual start of a request,
  `FunctionWitnesses.GoesStaleFrom`). `FunctionCalls.StepRightIff` states exactly which operations do this, and
  `FunctionCalls.RunCallsCurrent` that without them the caches make no difference.
* The comment at runkit_functions.c:1394 says that stack sizes are updated when a function is redefined or
  added; the pass runs only when it is redefined, and the new function's own calls are not fixed
  (`FunctionWitnesses.AddedTooSmall`, `FunctionWitnesses.RedefinedTooSmall`). `FunctionCaches` states for each
  operation exactly when every call still reserves enough.
* Copying a user function onto the name of a removed internal function is the one operation that binds such
  a name to a user function (`FunctionRuns.TypeKeptIff`, `FunctionWitnesses.TypeLostReached`).
* runkit7_constant_redefine removes the class constant before it looks at the new value, so the constant is lost
  exactly when the type check rejects the value or the name is reserved (`ClassConstants.ClassConstantRedefine`);
  an array that holds a reference to itself does it (`ClassConstants.SelfReferenceLoses`).
* The comments at runkit_functions.c:209 and 226 ask whether relative constant operands need rewriting: only
  when the distance from opcodes to literals changes (`OpArrayClone.ConstUnchangedIff`).
* The comment at ci/run-tests-parallel.php:1430 says that the order of tests with a common conflict key is
  preserved. `SchedulerOvertaking.InOrderIff` states exactly when two tests keep their order in every run over
  every list: any two other tests must keep both back at the same key, or at none, and any two others that share
  a key with them must share one with each other. Tests that carry one list of keys, as a CONFLICTS file of a
  directory gives it, qualify (`SchedulerOvertaking.GroupAligned`, `SchedulerOrder.OrderKept`);
  `SchedulerOrder.OrderLost` is a run in which two tests with a common key do not keep their order.
* A batch is one larger than the batch size exactly when enough tests are free (`SchedulerRuns.BatchExact`); with
  valgrind the code asks for one test and can send two (`SchedulerRuns.ValgrindBatchOfTwo`).
* The regular expression in the message for an invalid return type (runkit.h:446) allows the byte 0x7f and no
  leading backslash; the scanner does the opposite. Without either they agree (`ReturnType.MessageIff`,
  `ReturnType.MessageDiffers`).

## Model

| member | source | states |
|---|---|---|
| Hierarchy.InheritedSlotComplete | runkit_methods.c:151-193 | The else-if chain that moves a slot from the parent finds one whenever some slot should follow. |
| Hierarchy.HoldingSlotComplete | runkit_common.c:108-144 | The delete chain finds a slot whenever some slot holds the deleted method. |
| MethodTables.ClassEntry.AddMagic | runkit_common.c:47-106 | Setting the slot of a magic name and the guard flag on the class entry, tied to the value function the index lemmas are about. |
| MethodTables.ClassEntry.DelMagic | runkit_common.c:108-144 | Clearing the first slot that holds the method, tied to the value function the index lemmas are about. |
| MethodTables.ClassEntry.InheritMagic | runkit_methods.c:151-193 | Taking over one slot from the parent entry, tied to the value function the index lemmas are about. |
| MethodTables.Engine.UpdateChildrenForeach | runkit_methods.c:141-149 | One scan of the class table brings everything below the parent, and nothing else, to the state the update pass aims at; it ends on every acyclic hierarchy. |
| MethodTables.Engine.UpdateChildren | runkit_methods.c:198-245 | The mutual recursion on one class: ignored, left as it is at an overriding entry while its subclasses are still visited, or updated with its whole subtree. |
| MethodTables.Engine.CleanChildrenForeach | runkit_methods.c:247-256 | One scan of the clean pass changes exactly the subtree below the parent. |
| MethodTables.Engine.CleanChildren | runkit_methods.c:258-289 | The clean recursion on one class, with its tests for parent, scope and presence. |
| MethodTables.Engine.AddOrUpdate | runkit_methods.c:294-470 | Add and redefine in place: when they go through, the entry the class then has, nothing changed otherwise, and the whole new class table. |
| MethodTables.Engine.MethodCopy | runkit_methods.c:477-527 | Copy in place: it goes through exactly when the source is a user function and the destination a user class without a method of its own by the name; the destination then runs the body of the source, also over an inherited method. |
| MethodTables.Engine.MethodRemove | runkit_methods.c:553-597 | Remove in place: it goes through exactly for a user function, the class then lacks the name, and the whole new class table. |
| MethodTables.Engine.MethodRename | runkit_methods.c:601-685 | Rename in place: the class loses the old name and runs the old body under the new one, except the failing rename onto itself that has already deleted the method. |
| Coherence.FlatIffNearest | runkit_methods.c:198-245 | Each entry is the class's own or its parent's, with no gap, exactly when every lookup finds the nearest definer up the parent chain. |
| Coherence.UpdateKeepsFlat | runkit_methods.c:198-245 | The update pass leaves every class below in agreement with its parent, for the changed name and all others. |
| Coherence.AddMagicIndexes | runkit_common.c:47-106 | After storing a method and running the add chain each slot is the table entry of its magic name. |
| Coherence.DelMagicIndexes | runkit_common.c:108-144 | After dropping an entry and running the delete chain each slot is the table entry of its magic name. |
| Coherence.InheritMagicIndexes | runkit_methods.c:151-193 | In an inheriting class the chain moves exactly the slot of the method's name. |
| Coherence.UpdateKeepsIndex | runkit_methods.c:198-240 | The update pass keeps every slot of every class an exact index of its table, and keeps the guard flag with the property slots. |
| Coherence.UpdateKeepsGuards | runkit_common.c:21-45 | A class with a __get, __set, __isset or __unset slot has the guard flag after the pass. |
| MethodOps.CleanedIff | runkit_methods.c:247-289 | The clean pass reaches exactly the subclasses that inherit the removed entry. |
| MethodOps.InstallKeepsInv | runkit_methods.c:361-467 | Installing a method whose pass is filtered by the scope of what it replaces keeps flat tables and exact slots everywhere. |
| MethodOps.UninstallKeepsInv | runkit_methods.c:553-597 | Removing an entry the parent does not offer keeps flat tables and exact slots everywhere. |
| MethodOps.UninstallTopIff | runkit_methods.c:553-597 | After a removal the class agrees with its parent exactly when the parent did not offer the name. |
| MethodRuns.LookupResolves | runkit_methods.c:99-139 | In a coherent class table one hash lookup answers what the walk up the declared parents answers. |
| MethodRuns.AddRefines | runkit_methods.c:361-467 | A guarded add is one step of the machine that stores declarations only, with the same result. |
| MethodRuns.RedefineRefines | runkit_methods.c:361-467 | A redefine is one step of that machine, with no guard. |
| MethodRuns.RemoveRefines | runkit_methods.c:553-597 | A guarded remove is one step of that machine. |
| MethodRuns.RenameRefines | runkit_methods.c:601-685 | A guarded rename is one step of that machine. |
| MethodRuns.StepRefines | runkit_methods.c:294-685 | Every guarded operation keeps flat tables and exact slots and refines its step of the declared machine. |
| MethodRuns.RunRefines | runkit_methods.c:141-685 | Over every guarded run, every lookup in the engine's tables is the walk up the parents in the declared machine, and slots stay an exact index. |
| MethodGuards.AddKeepsFlatIff | runkit_methods.c:368-455 | Add keeps the tables flat exactly when the class did not inherit the name or all its direct subclasses override it. |
| MethodGuards.CopyKeepsFlatIff | runkit_methods.c:477-527 | Copy keeps the tables flat under exactly the same condition on the destination. |
| MethodGuards.AddKeepsInvIff | runkit_common.c:47-57 | Add keeps flat tables and exact slots exactly when the class lacks the name, or all its direct subclasses override it and it is not the constructor. |
| MethodGuards.CopyKeepsInvIff | runkit_methods.c:477-527 | The same exact condition for copy. |
| MethodGuards.ConstructorSlotGoesStale | runkit_common.c:47-57 | A concrete leaf class whose added constructor is in the table while the slot stays on the inherited one. |
| MethodGuards.RemoveKeepsFlatIff | runkit_methods.c:553-597 | Remove keeps the tables flat exactly when the parent does not offer the name; the slots stay exact in any case. |
| MethodGuards.RemoveLeavesHole | runkit_methods.c:553-597 | A concrete chain where removing an override leaves the class without the method its parent offers. |
| MethodGuards.RenameKeepsFlatIff | runkit_methods.c:601-685 | Rename keeps the tables flat exactly when both conditions hold, for the old and the new name. |
| MethodGuards.RenameKeepsInvIff | runkit_methods.c:601-685 | Rename keeps flat tables and exact slots exactly when the old name is not inherited and the new one may be placed. |
| MethodGuards.RenameToItself | runkit_methods.c:616-660 | Renaming an inherited method to its own name always loses it. |
| MethodGuards.AddOverInheritedGoesStale | runkit_methods.c:379-455 | A concrete three-class chain where a subclass keeps calling the old method. |
| MethodEffects.AddEntries | runkit_methods.c:361-467 | On any class table, add is refused exactly for an unknown class, an internal one, an interface or a name of its own, and then changes nothing; else the class and those below it that have no such entry, or one the class defined, get the new function, and no other entry changes. |
| MethodEffects.AddOverInherited | runkit_methods.c:368-455 | Over an inherited name only the class itself changes: every other class and every other name keeps its entry. |
| MethodEffects.AddOntoAbsent | runkit_methods.c:361-467 | Onto a name the class lacks, exactly the classes below that lack it get the function too. |
| MethodEffects.CopyEntries | runkit_methods.c:477-527 | Copy gives the destination the body of the source entry, where add would put it, and is refused when the source has no such user function. |
| MethodEffects.CopyOverInherited | runkit_methods.c:490-522 | Copied over an inherited name, the destination runs the body of the source and every other entry stays. |
| MethodEffects.RedefineEntries | runkit_methods.c:361-467 | Redefine goes through exactly for a user function that is not running; the class and exactly the classes below that inherited the old entry get the new function. |
| MethodEffects.RemoveEntries | runkit_methods.c:553-597 | Exactly the class and the classes below that inherit the entry lose the name, also when it overrides the parent; nothing else changes. |
| MethodEffects.RenameEntries | runkit_methods.c:601-685 | The old entry goes where remove takes it from, and a function with its body comes where add puts it; no other entry changes. |
| MethodEffects.RenameToItselfRemoves | runkit_methods.c:616-660 | Renamed to its own name, an inherited entry is lost exactly as if removed and the call fails. |
| MethodEffects.AddSlots | runkit_common.c:47-106 | Add gives the function the slot of its name, but leaves a constructor slot that is set; the guard flag is set with __get, __set, __isset and __unset. |
| MethodEffects.RedefineSlots | runkit_common.c:47-106 | Redefine gives it the slot of its name, a constructor slot if that held the old entry. |
| MethodEffects.RenameSlots | runkit_methods.c:658-676 | Rename frees the slot of the old name, and the function takes that of the new one as in add. |
| MethodEffects.InheritMoves | runkit_methods.c:151-193 | On any class the inherit chain moves at most one slot, one that held the old method and holds the new one in the parent, and sets the guard flag for the property slots. |
| MethodEffects.InheritMovesOne | runkit_methods.c:151-193 | It moves one whenever there is one to move. |
| MethodEffects.DeleteClears | runkit_common.c:108-144 | On any class the delete chain clears at most one slot, one that holds the method, and one whenever there is one. |
| MethodEffects.ClearsIff | runkit_methods.c:436-643 | The caches are cleared exactly by operations that go through, by copy only over an entry, and by the rename that loses its method. |
| MethodCaches.CopyOntoAbsent | runkit_methods.c:488-522 | Copying onto a name the class does not have changes no method lookup that succeeded. |
| MethodCaches.RunKeepsRight | runkit_methods.c:477-527 | Over every run of lookups and guarded method operations each lookup cached by a function that every clearing reaches is the current one, although copy clears the caches only over an inherited name. |
| Adoption.AdoptStarts | runkit_classes.c:250-294 | Setting the parent link leaves slots exact and only the link in the declarations new. |
| Adoption.AdoptEnds | runkit_classes.c:139-187 | When the loop has handled every method of the parent, all tables are flat again. |
| Adoption.FreeEnds | runkit_classes.c:27-60 | When the loop has handled every method of the class, cutting the link leaves coherent tables and the declarations without the parent. |
| Adoption.DeclarationsDetermine | runkit_classes.c:139-187 | Two coherent class tables with the same declarations have the same method tables and slots. |
| Adoption.AcyclicIff | runkit_classes.c:235-256 | The new parent link keeps the hierarchy acyclic exactly when the parent is neither the class nor below it. |
| Adoption.CycleChains | runkit_methods.c:141-245 | On the cycle a parent from below closes, there are chains of subclasses of any length, so a pass started there never ends. |
| Adoption.AdoptsAdopted | runkit_classes.c:139-187 | In whatever order the inherit loop meets the methods, the table afterwards is coherent and declares only the link anew. |
| Adoption.EmancipatesFreed | runkit_classes.c:27-60 | In whatever order the removal loop meets the methods, the table afterwards is coherent and has lost only the link. |
| ClassOps.InheritMethod | runkit_classes.c:151-187 | One step of the inherit loop: the whole new class table. |
| ClassOps.RemoveInherited | runkit_classes.c:35-60 | One step of the removal loop: the whole new class table. |
| ClassOps.ClassAdopt | runkit_classes.c:235-296 | Adopting keeps all invariants and changes the declarations by the parent link alone; the checks decide the result. A link that closes a cycle is set, and nothing else changed, whenever the call ends. |
| ClassOps.ClassEmancipate | runkit_classes.c:83-133 | Emancipating keeps all invariants and removes the parent link from the declarations, nothing else; on a cycle it does so for a class that has only methods of its own. |
| ClassOps.AdoptThenEmancipate | runkit_classes.c:83-296 | Adopt then emancipate restores every method table, slot and parent link of the whole hierarchy. |
| ClassRuns.ClassStepRefines | runkit_classes.c:83-296 | Each guarded operation on methods or parents leaves the flat form of what the declared machine with changing parent links then holds, with the same result. |
| ClassRuns.ClassRunRefines | runkit_classes.c:27-296 | Over every guarded run of all seven operations the hierarchy stays acyclic, slots stay exact and each lookup is the walk up the parents as they then are. |
| ConstantArrays.Memory.ValidateConstantArray | runkit_constants.c:28-84 | On every array graph, cyclic or shared, validation ends, decides by the recursive criterion, and restores every recursion mark on both outcomes. |
| ConstantArrays.AcceptsIff | runkit_constants.c:28-84 | An array is accepted exactly when no walk through mutable arrays from it closes a cycle or reaches a forbidden element. |
| ConstantArrays.AcceptedHolds | runkit_constants.c:28-115 | Every accepted array has finite contents, so copying it ends. |
| ConstantArrays.HoldsUnique | runkit_constants.c:87-115 | The contents of an array are unique. |
| ConstantArrays.Memory.CopyElement | runkit_constants.c:95-112 | One element of the copy is the source value, references followed, a resource without its count, an immutable array itself and any other array as a copy. |
| ConstantArrays.CopyFollows | runkit_constants.c:87-115 | A private copy with the contents of a value is its copy along every path of elements. |
| ConstantArrays.Memory.CopyConstantArray | runkit_constants.c:87-115 | The copy holds the same contents in the same key order, along every path of elements, reference-free, in newly allocated arrays that no two places share. |
| ConstantArrays.Memory.CopyConstantZval | runkit_constants.c:117-152 | The copy of a value succeeds exactly when validation accepts it, and then is the value itself or its copy along every path of elements, a resource without its count, held privately. |
| ConstantArrays.Memory.CheckHasConstantType | runkit_constants.c:371-393 | The type check accepts exactly the constant values, of those without elements null, numbers, booleans, strings, resources and objects, and leaves no mark behind. |
| ConstantArrays.Memory.GlobalConstantAdd | runkit_constants.c:395-412 | Behind the check the copy whose result is ignored never fails, so a constant is added exactly when valid and new; what is stored is the value, or its copy along every path of elements. |
| ConstantArrays.SelfReferenceRejected | runkit_constants.c:28-84 | An array that leads to itself is no constant value. |
| ClassConstants.UpdateChildrenConstsForeach | runkit_constants.c:269-276 | One scan binds the constant in exactly the classes below, overwriting their own. |
| ClassConstants.UpdateChildrenConsts | runkit_constants.c:280-297 | The recursion on one class ends on acyclic hierarchies and its error branch is dead. |
| ClassConstants.ClassConstantAdd | runkit_constants.c:416-453 | A constant is bound in exactly the class and, unless private, all its descendants, with the value and access given and each class as its definer; nothing else changes. |
| ClassConstants.ClassConstantRemove | runkit_constants.c:300-329 | Removal touches the class alone and refuses enum cases and missing constants. |
| ClassConstants.ClassConstantRedefine | runkit_constants.c:495-530 | Redefining removes, checks the value in memory and binds again, in the descendants too, with the access given or else the old one; an existing constant is lost exactly when the value is no constant value or the name is reserved. |
| ClassConstants.RedefineBinds | runkit_constants.c:495-530 | A redefinition succeeds exactly for a class that may be changed, a constant it has that is no enum case, a constant value and a name that is not reserved. |
| ClassConstants.SelfReferenceLoses | runkit_constants.c:495-530 | Redefining any class constant with an array that refers to itself fails and loses the constant. |
| ClassConstants.RemovedThenBound | runkit_constants.c:519-526 | Removing a constant and binding it again gives the class table that binding it directly gives. |
| OpArrayClone.OpArray.CopyCtor | runkit_functions.c:453-571 | The clone's addresses and literals, and opcodes that differ from the originals in constant operands and listed jumps only, with the originals left as they are; from a single block of at most 2 GiB disjoint from the old one, the program afterwards, operand types included, is the program before. |
| OpArrayClone.OpArray.CopyOpcodes | runkit_functions.c:456-511 | Every opcode is copied as a whole and only its listed jump operand fixed, by the in-range test. |
| OpArrayClone.OpArray.RelocateConstants | runkit_functions.c:528-566 | The descending scan with found flags rewrites each constant operand once. |
| OpArrayClone.FixedAt | runkit_functions.c:457-566 | Opcode, operand types and all but the operands stay; an operand that is neither constant nor a jump of FAST_CALL, JMP, JMPZ, JMPNZ, JMPZ_EX, JMPNZ_EX or JMP_SET is unchanged. |
| OpArrayClone.FixedOperands | runkit_functions.c:459-566 | A constant operand moves with its literal and stays when it refers to none; a listed jump moves by the distance of the blocks when its target, read in the copy, lies in the old opcodes. |
| OpArrayClone.RelativeJumpKept | runkit_functions.c:471-481 | Under relative addressing the in-range test never fires and every jump keeps its opcode index. |
| OpArrayClone.AbsoluteJumpRebased | runkit_functions.c:471-481 | Under absolute addressing it fires for every jump and rebases it to the same opcode index. |
| OpArrayClone.ConstExactIff | runkit_functions.c:219-231 | A constant operand of the clone resolves to the copy of its literal exactly when the displacement fits 32 bits. |
| OpArrayClone.SingleBlockDisplacements | runkit_functions.c:312-353 | In the single block the literals keep the block's alignment, lie after the opcodes, and every displacement is positive and smaller than the block. |
| OpArrayClone.ConstUnchangedIff | runkit_functions.c:224-229 | A relative constant operand stays as it is exactly when the distance to the literals does. |
| OpArrayClone.FlagNeeded | runkit_functions.c:528-563 | Without the found flags a rewritten operand can be taken for a reference to another literal. |
| OpArrayClone.DecodeKeptIff | runkit_functions.c:456-566 | One opcode of the clone means what it meant exactly when its constants fit and its jumps are among the listed ones where addresses are absolute. |
| OpArrayClone.ProgramKeptIff | runkit_functions.c:453-569 | The clone stands for the same program exactly when every opcode meets that guard. |
| OpArrayClone.SingleBlockKeepsProgram | runkit_functions.c:312-566 | On 64-bit builds a single block below 2 GiB always gives a clone of the same meaning. |
| FunctionTable.Functions.FetchFunction | runkit_functions.c:89-158 | Looking up a function, refusing internal ones without the override, and saving a clone before the first change. |
| FunctionTable.Lower | runkit_functions.c:94 | Lower-casing adds 32 to the characters from A to Z and leaves the others. |
| FunctionTable.Need | runkit_functions.c:864-900 | Five slots of 16 bytes for the frame, one per argument, and for user functions one per variable and temporary in place of the arguments that are parameters. |
| FunctionSpelling.LowerIff | runkit_functions.c:94 | Two names fall together exactly when they differ in ASCII case only. |
| FunctionSpelling.StepRespelt | runkit_functions.c:1272-1691 | Spelling the names of an operation otherwise changes neither the state afterwards nor the result. |
| FunctionSpelling.SucceedsIff | runkit_functions.c:1272-1691 | In a table without capitals a name counts as taken, or as known, exactly when some spelling of it is bound. |
| FunctionSpelling.RunKeepsLower | runkit_functions.c:89-1691 | Over every run no name with a capital comes into the function table, the saved clones or the misplaced names. |
| FunctionTable.Functions.FunctionClone | runkit_functions.c:271-307 | A user function cloned as internal becomes an alias of a private copy; caches start empty. |
| FunctionTable.Functions.FixHardcodedStackSizes | runkit_functions.c:864-900 | The pass over one function raises the reservation of each call of the name to the need, in place. |
| FunctionTable.Functions.FixAllHardcodedStackSizes | runkit_functions.c:914-942 | The pass reaches user functions in the table, methods, active functions and closures, and is idempotent where one is met twice. |
| FunctionTable.Functions.ClearAllFunctionsRuntimeCache | runkit_functions.c:833-860 | The caches of exactly those functions are emptied. |
| FunctionTable.Functions.FunctionAdd | runkit_functions.c:1272-1423 | The whole new state of add. |
| FunctionTable.Functions.FunctionRedefine | runkit_functions.c:1347-1398 | The whole new state of redefine, with the passes before the binding. |
| FunctionTable.Functions.FunctionRemove | runkit_functions.c:1442-1480 | The whole new state of remove. |
| FunctionTable.Functions.FunctionRename | runkit_functions.c:1531-1634 | The whole new state of rename in all four cases of alias and type. |
| FunctionTable.Functions.FunctionCopy | runkit_functions.c:1648-1691 | The whole new state of copy, with the misplaced name recorded twice. |
| FunctionTable.Functions.RequestShutdown | runkit.c:423-451 | Wiping misplaced names and, under FPM, rebinding saved clones. |
| FunctionRuns.FetchEvolves | runkit_functions.c:89-158 | The fetch touches no binding and records a clone of what the name is bound to, once. |
| FunctionRuns.StepEvolves | runkit_functions.c:1272-1691 | No operation touches an internal binding that has no saved clone, and none binds a name to an internal function without recording it. |
| FunctionRuns.ShutdownRestores | runkit.c:423-451 | After every run, FPM shutdown leaves each originally internal name bound to its original function, and only original, saved or empty names bound to internal ones. |
| FunctionRuns.ShutdownFinds | runkit.c:423-451 | Under FPM a name gets its saved clone back, a misplaced one loses its binding, all others keep it; other server APIs keep the saved clones unused. |
| FunctionRuns.ShutdownKeeps | runkit.c:423-436 | After every run a shutdown under another server API leaves internal functions that were not changed, and of the changed ones what the request left. |
| FunctionRuns.StepMisplaces | runkit_functions.c:1623-1672 | Recorded as misplaced is exactly the name that rename, once, or copy, twice, newly binds to an internal function. |
| FunctionRuns.TypeKeptIff | runkit_functions.c:1661-1677 | Names that were once internal stay of internal type under every operation except exactly the copy of a user function onto one. |
| FunctionRuns.RunKeepsType | runkit_functions.c:1369-1377 | Over every run without such a copy, saved names are bound to functions of internal type only. |
| FunctionRuns.RenameMovesBody | runkit_functions.c:1555-1625 | Rename moves the body behind aliases, clones and wrapping, and moves no other binding. |
| FunctionRuns.RenameBack | runkit_functions.c:1531-1634 | Renaming there and back always goes through and restores what every name resolves to. |
| FunctionNames.AddResolves | runkit_functions.c:1355-1398 | Add makes an absent name run the new code, as an alias or not, and changes no other name. |
| FunctionNames.RedefineResolves | runkit_functions.c:1347-1398 | Redefine makes the name run the new code and changes no other name. |
| FunctionNames.RemoveResolves | runkit_functions.c:1442-1480 | Remove takes the name away, if its function may be touched, and changes no other name. |
| FunctionNames.RenameResolves | runkit_functions.c:1531-1634 | Rename moves what the name runs to an absent name and changes no other. |
| FunctionNames.CopyResolves | runkit_functions.c:1648-1691 | Copy makes an absent name run what the source runs and changes no other name. |
| FunctionNames.AddGoes | runkit_functions.c:1353-1370 | Add succeeds exactly for a non-empty name that is not bound; refused, it changes nothing. |
| FunctionNames.RedefineGoes | runkit_functions.c:1347-1398 | Redefine succeeds exactly for a bound name whose function may be touched. |
| FunctionNames.RemoveGoes | runkit_functions.c:1442-1480 | Remove succeeds exactly for a bound name whose function may be touched. |
| FunctionNames.RenameGoes | runkit_functions.c:1531-1560 | Rename succeeds exactly for such a source and a target that is not bound. |
| FunctionNames.CopyGoes | runkit_functions.c:1648-1660 | Copy succeeds under the same condition. |
| FunctionNames.AddType | runkit_functions.c:1369-1377 | An added function is of internal type exactly when its name once was. |
| FunctionNames.RedefineType | runkit_functions.c:1369-1377 | Redefining keeps the type a name has. |
| FunctionNames.RenameType | runkit_functions.c:1555-1607 | A renamed function is of internal type exactly when the new name once was or its body is a handler. |
| FunctionNames.CopyType | runkit_functions.c:1661-1677 | A copy is of the type of its source. |
| FunctionNames.StepResolves | runkit_functions.c:89-1691 | With clones, aliases and saved functions, every operation is the dictionary operation on what names resolve to. |
| FunctionNames.StepRefines | runkit_functions.c:89-1691 | Each operation is one step of a machine that only maps names to bodies. |
| FunctionNames.RunRefines | runkit_functions.c:89-1691 | Over every run the function table holds what the dictionary machine holds after the same operations. |
| FunctionCaches.StepFitsIff | runkit_functions.c:833-861 | Every operation keeps the caches in reach in agreement with the table; a call does exactly unless the function it enters has an outdated cache. |
| FunctionCaches.RunKeepsCaches | runkit_functions.c:807-861 | Over every run of operations, calls and returns that enters no function with an outdated cache, each cache in reach agrees with the table. |
| FunctionCalls.StepRightIff | runkit_functions.c:806-861 | The caches of all functions that can be called stay right, exactly unless an operation takes away or rebinds a name that a function left behind an alias remembers. |
| FunctionCalls.RunCallsCurrent | runkit_functions.c:806-861 | Over every run without such an operation, whatever is entered, each call by name runs what the table binds at that moment. |
| FunctionCaches.HiddenCacheIff | runkit_functions.c:806-821 | After removing, redefining or renaming a name, the cache of a function behind an alias is right exactly when it never held the name. |
| FunctionCaches.HiddenCacheGoesStale | runkit_functions.c:806-861 | A function behind an alias that has called another keeps it after its removal; entered again it is in reach with a wrong cache, and its next call runs the removed function. |
| FunctionWitnesses.GoesStaleFrom | runkit_functions.c:806-861 | A run of seven events from every start of a request with an internal function, a user function, a script and a closure into such a state. |
| FunctionWitnesses.StaleCacheReached | runkit_functions.c:806-861 | The same from a concrete start. |
| FunctionWitnesses.TypeLostReached | runkit_functions.c:1661-1677 | Removing an internal function and copying a user function onto its name breaks the type invariant. |
| FunctionCaches.FixAllReserves | runkit_functions.c:864-942 | The pass leaves each call of the name with the larger of old size and need, and changes nothing else. |
| FunctionCaches.RemoveKeepsRoomy | runkit_functions.c:1442-1480 | Removing keeps every reached call with enough stack. |
| FunctionCaches.RenameRoomyIff | runkit_functions.c:1609-1625 | Renaming keeps it too, except exactly when code brought out from behind an alias has calls that reserve too little. |
| FunctionCaches.RedefineRoomyIff | runkit_functions.c:1388-1398 | Redefining keeps it exactly when the new code's own calls reserve enough. |
| FunctionWitnesses.RedefinedTooSmall | runkit_functions.c:1388-1398 | A function redefined by larger recursive code keeps its old reservation for the call of itself. |
| FunctionCaches.AddRoomyIff | runkit_functions.c:1388-1398 | Adding keeps it exactly when all callers and the new code already reserve enough. |
| FunctionWitnesses.AddedTooSmall | runkit_functions.c:1388-1398 | Removing a function that is called and adding a larger one leaves the call with too little stack. |
| FunctionCaches.CopyRoomyIff | runkit_functions.c:1648-1691 | Copying keeps it exactly when all callers already reserve enough for the source. |
| FunctionCaches.StepRoomyIff | runkit_functions.c:1272-1691 | One guard, checkable before the event, decides for every operation, call and return. |
| FunctionCaches.RunKeepsRoomy | runkit_functions.c:864-942 | Over every run of operations, calls and returns that meets the guard, each call in reach reserves enough for its current binding. |
| EngineCaches.EventSoundIff | runkit_functions.c:833-861 | With function and method caches, class operations, calls and lookups together, each event keeps everything a function in reach remembers right, exactly unless it enters a function that remembers something outdated. |
| EngineCaches.RunKeepsSound | runkit_functions.c:806-861 | The same over every run that interleaves them. |
| Superglobals.SplitIff | runkit.c:350-364 | The fields are the one list of comma-free names that spells the setting with commas between them. |
| Superglobals.CommaParts | runkit.c:350-364 | The separator is the ASCII comma. |
| Superglobals.Request.StrChr | runkit.c:351-358 | The scan finds the first comma before the terminating NUL. |
| Superglobals.Request.RinitRegisterSuperglobals | runkit.c:338-366 | The in-place scan that cuts the copy with NULs registers the non-empty fields in order. |
| Superglobals.AddedExactly | runkit.c:300-367 | Registered are exactly the non-empty fields not known before, each once, in first-occurrence order. |
| Superglobals.ShutdownUndoesStartup | runkit.c:395-419 | Shutdown gives auto_globals back exactly as startup found it, for every setting. |
| ReturnType.IsValidReturnType | runkit.h:379-424 | Accepts exactly an optional '?', an optional '\' and names joined by single '\', and never reads at or past the end. |
| ReturnType.NameBytes | runkit.h:379-420 | Names begin with an ASCII letter, an underscore or a byte from 0x80 and go on with those and digits. |
| ReturnType.SignBytes | runkit.h:379-420 | The sign for nullable types is "?", the separator "\". |
| ReturnType.AfterName | runkit.h:402-420 | After a name only a backslash and a further qualified name can follow. |
| ReturnType.MessageIff | runkit.h:379-446 | The accepted strings without a leading backslash are exactly the strings the message's expression matches that have no byte 0x7f. |
| ReturnType.MessageDiffers | runkit.h:379-446 | A rooted name is accepted against the message, and the name 0x7f refused against it. |
| Scheduler.Partition | ci/run-tests-parallel.php:1402-1428 | A test has the keys of its own section, else those of the file of its directory, else none; the sequential ones are exactly those with the key "all"; both parts keep the order and lose no test. |
| Scheduler.SelectSplits | ci/run-tests-parallel.php:1420-1425 | The two parts together are the tests given, and the mark decides the part. |
| Scheduler.Master.ReleaseConflicts | ci/run-tests-parallel.php:1571-1581 | Giving back a worker's keys and requeueing the tests that waited for them. |
| Scheduler.Master.TakeBatch | ci/run-tests-parallel.php:1597-1609 | Popping tests into a batch and putting off those with an active key. |
| Scheduler.Master.OnMessage | ci/run-tests-parallel.php:1568-1629 | The whole new state after one message and the batch sent. |
| Scheduler.AdmittedLast | ci/run-tests-parallel.php:1587-1591 | With a single worker left the sequential tests come behind the others, so that they are popped first. |
| Scheduler.ClaimedLast | ci/run-tests-parallel.php:1611-1615 | A key that was not taken comes last in the order of keys, any other stays where it is. |
| Scheduler.FirstActiveIsFirst | ci/run-tests-parallel.php:1602-1606 | A test is put off at the first key of its list that is taken. |
| Scheduler.ReleasedQueue | ci/run-tests-parallel.php:1575-1578 | The tests that waited for a key come after the pending ones, the last to wait first. |
| Scheduler.ReleaseAppend | ci/run-tests-parallel.php:1571-1581 | Keys are given back in the order in which they were claimed. |
| Scheduler.ClaimAppend | ci/run-tests-parallel.php:1611-1615 | Keys are claimed in the order of the batch. |
| Scheduler.ClaimKeysAppend | ci/run-tests-parallel.php:1612-1614 | The keys of one test are claimed in the order of its list. |
| SchedulerRuns.ReleaseGivesBack | ci/run-tests-parallel.php:1571-1581 | Releasing gives back exactly the worker's keys and loses no waiting test. |
| SchedulerRuns.TakeIsTaken | ci/run-tests-parallel.php:1597-1609 | A batch has no test with an active key, nothing is lost, and an undersized batch leaves nothing pending. |
| SchedulerRuns.ClaimClaims | ci/run-tests-parallel.php:1611-1615 | After dispatch exactly the keys of the batch are added, all held by its worker. |
| SchedulerRuns.StepKeeps | ci/run-tests-parallel.php:1568-1629 | Every message keeps the invariant of master and workers and decreases the measure. |
| SchedulerRuns.RunKeeps | ci/run-tests-parallel.php:1539-1629 | Every run keeps each test in exactly one place and the busy count right, and is at most as long as the tests and workers together. |
| SchedulerRuns.NoOverlap | ci/run-tests-parallel.php:1396-1398 | Tests out with two workers share no conflict key. |
| SchedulerRuns.RunsByItself | ci/run-tests-parallel.php:1420-1425 | A test marked "all" is only ever out with the last worker alive. |
| SchedulerRuns.NeverStalls | ci/run-tests-parallel.php:1539-1543 | While the loop goes on, some worker owes a message. |
| SchedulerRuns.EndsDone | ci/run-tests-parallel.php:1698-1700 | The loop ends exactly when every test is done; the last worker leaves only then; the count is never negative. |
| SchedulerRuns.Session.Serve | ci/run-tests-parallel.php:1550-1629 | One message of a worker, as a step of the whole system. |
| SchedulerRuns.RunAllTestsParallel | ci/run-tests-parallel.php:1380-1701 | Whichever worker answers first, the program ends with every test done as often as it was given. |
| SchedulerRuns.Plan | ci/run-tests-parallel.php:1402-1462 | The files to run in parallel are popped in the order given, or as shuffled; workers are numbered from 1, no more than asked for or than there are such files, but at least one; the invariant holds. |
| SchedulerRuns.Drain | ci/run-tests-parallel.php:1539-1701 | The main loop handles the messages of one run from the start to its end, with every test done. |
| SchedulerRuns.BatchExact | ci/run-tests-parallel.php:1594-1610 | A batch is the smaller of the free tests and one more than the batch size, so it exceeds the size exactly when more tests than that are free; the size is at most 1 under valgrind, 4 when shuffled, 32 otherwise. |
| Scheduler.BatchSizeIs | ci/run-tests-parallel.php:1598-1600 | The batch size is the least with which all workers together get through the tests in one round, at least 1 and at most 1 under valgrind, 4 when shuffled, 32 otherwise. |
| SchedulerRuns.ValgrindBatchOfTwo | ci/run-tests-parallel.php:1594-1610 | A start state in which the code asks for one test and sends two. |
| SchedulerOrder.TakeKeepsLine | ci/run-tests-parallel.php:1601-1609 | While all tests of a set meet the same active key, or none, taking a batch keeps their order. |
| SchedulerOrder.RunKeepsOrder | ci/run-tests-parallel.php:1430-1433 | Over every run, dispatched and remaining tests that carry one list of keys keep their order. |
| SchedulerOrder.OrderKept | ci/run-tests-parallel.php:1430-1433 | A run that ends has dispatched the tests of a key in the order given, when every test with a key of its list carries exactly the list. |
| SchedulerOrder.OrderLost | ci/run-tests-parallel.php:1430-1433 | A concrete run in which a test overtakes an earlier one with a common key because that one has a second key. |
| SchedulerPairs.RunKeepsPair | ci/run-tests-parallel.php:1568-1615 | With aligned keys, every run keeps two tests in one queue, in order, until the first of them is out. |
| SchedulerPairs.PlanBegins | ci/run-tests-parallel.php:1430-1440 | What the script sets up from distinct test files without shuffling is a beginning the order results are about. |
| SchedulerOvertaking.SplitOvertakes | ci/run-tests-parallel.php:1571-1609 | Two running tests that keep back the two at different keys, or only one of them, let the later one overtake in some run. |
| SchedulerOvertaking.ApartOvertakes | ci/run-tests-parallel.php:1571-1609 | So do two others without a common key, side by side: the first test comes back behind the second. |
| SchedulerOvertaking.InOrderIff | ci/run-tests-parallel.php:1430-1433 | Two tests are handed out in the order given, in every run over every list of distinct tests with these conflicts, exactly when their keys are aligned. |
| SchedulerOvertaking.GroupAligned | ci/run-tests-parallel.php:1396-1410 | Tests that carry one list of keys, which no other test shares in part, are aligned. |

## Left out

- SchedulerOrder.OrderKept: for tests that carry one list of keys; for any other two tests SchedulerOvertaking.InOrderIff decides.
- SchedulerOrder.RunKeepsOrder: the same restriction.
- SchedulerOvertaking.InOrderIff: quantifies over all lists, numbers of workers and options; for one list, one worker or large batches the order can be kept although the keys are not aligned.
- FunctionTable.Functions.FixAllHardcodedStackSizes: each function has its own opcodes, while a closure and the function it was made from may share them; zend_vm_calc_used_stack is not part of this model beyond its frame formula, taken without 32-bit overflow.
- FunctionTable.Functions.FunctionAdd: new code is a user-function closure; code given as strings, closures of internal functions, doc comments and return types are not part of the state.
- FunctionTable.Functions.FunctionRedefine: the same restriction on the new code.
- FunctionTable.Functions.ClearAllFunctionsRuntimeCache: the order in which the hash tables are visited is left open, and functions suspended in generators are not reached, as in the code.
- MethodTables.Engine.MethodRemove: reflection objects, prototypes and doc comments of methods are not part of the state, and the runtime caches are modelled apart in MethodCaches.
- MethodTables.Engine.AddOrUpdate: class names are identities, so the string comparison in the lookup of a class is not modelled.
- MethodRuns.RunRefines: an entry whose scope is neither the class nor one above it, such as an abstract method taken from an interface, is never flat (Coherence.ScopeAbove), so classes with one are outside of the guarded runs.
- ClassOps.ClassAdopt: a parent that is the class or below it and has a method the class lacks starts a pass on a cycle, which does not end; only such calls are excluded. Properties, default values and constants of the parent are not copied.
- ConstantArrays.Memory.CopyConstantArray: the new array is stored in its parent after it was filled, where the code stores it first; holes in hash tables and reference counts are not modelled.
- ConstantArrays.Memory.GlobalConstantAdd: zend_register_constant is taken to fail exactly when the name is taken.
- ClassOps.AdoptThenEmancipate: the same calls are excluded.
- ClassOps.ClassEmancipate: on a cyclic hierarchy only a class whose methods are all its own.
- ClassConstants.ClassConstantAdd: each class gets the same value, while the code duplicates the value for each class (runkit_constants.c:227).
- ClassConstants.ClassConstantRedefine: the flag check that precedes it and global constants are not modelled.
- OpArrayClone.OpArray.CopyCtor: variables, static variables, argument information, try/catch tables and live ranges are copied without address arithmetic and left out; addresses do not wrap.
- SchedulerRuns.RunAllTestsParallel: sockets, worker processes, test execution and reporting are left out; workers answer every batch; test names are never the strings PHP takes for false; the shuffled order is a parameter.
- Scheduler.Partition: the parsing of conflict lists is a parameter.
- Superglobals.ShutdownUndoesStartup: nothing else changes auto_globals between startup and shutdown.
- The worker's command loop in ci/run-tests-parallel.php runs the tests of a batch one by one and answers, without state that outlives a batch.
- runkit_props.c and the property halves of adopt and emancipate: disabled for PHP 7 and later.
- runkit_zend_execute_API.c and php_runkit_hash.h: engine code with little state of its own.
- Memory ownership, reference counts, persistent allocation and allocation failure: functions are identities with a body and a type.
- Argument parsing, warnings, INI registration, generated code and version branches before PHP 8.1: no table of the engine depends on them beyond what is modelled.
