# Class records of the Objective-C runtime (objcrt/class.c)

This project models the class-record half of the ObjFW-derived Objective-C
runtime in `Frameworks/objcrt/class.c`. It covers:

- the class table (`classes`) and registration, including aliases;
- lazy linking of a class to its superclass (`setup_class`): superclass and
  metaclass pointers, subclass lists, and the instance-size and ivar-offset slide;
- the per-class dispatch tables (`objc_update_dtable`);
- the `+load` protocol of `objc_register_all_classes`, with its load queue;
- the `+initialize` protocol (`initialize_class`, `objc_initialize_class`);
- the reflection queries that walk superclass chains, method lists and ivar lists;
- `class_replaceMethod` and `method_exchangeImplementations`;
- the type-encoding scanner behind `method_copyReturnType` and
  `method_getNumberOfArguments`.

The state of the runtime is one Dafny `class Runtime` (module `ObjcRuntime`).
Its fields are the globals of class.c plus arenas for everything the C code
reaches by pointer:

- `recs`: every class and metaclass record, by address (`ClassId`);
- `batches`: every `objc_method_list`, by address;
- `dtables`: every sparse array, by address, with 0 standing for `empty_dtable`;
- `dtableOf`: each record's `dtable` pointer; a record with no entry has a NULL
  dtable, i.e. it is not registered;
- `table`: the class hashtable, `None` until the first registration creates it;
- `loadQueue`: `load_queue[0 .. load_queue_cnt]`.

A record is a datatype (`ClassRec`) that the methods replace in place. A method
chain (`next` links) is a sequence of batch addresses, and a `Method` pointer
is a `MethodRef(batch, index)`.

The `load` and `initialize` hooks are not executed. Each call appends an
`Event` to a ghost trace, so the order of calls is stated and proved. Each
recursion of the C code (`setup_class`, `call_load`, `initialize_class`,
`objc_update_dtable`) is a Dafny method with the same recursion. It is proved
equal to a specification function (`Setup`, `LoadMarks`/`LoadEvents`,
`InitMarks`/`InitEvents`, `Update`), and the properties of those functions are
proved as lemmas.

Modules and files:

| module | file | covers |
|---|---|---|
| RuntimeTypes | runtime_types.dfy | records, flags, 32-bit arithmetic |
| ObjcRuntime | runtime.dfy | the `Runtime` state, its invariant, registration |
| Status | status.dfy | flag updates, the pending walk |
| Hierarchy | hierarchy.dfy | `setup_class` as a function, subclass lists |
| Linker | linker.dfy | `setup_class`, `add_subclass`, `objc_lookup_class` |
| MethodLists | method_lists.dfy | method chains, lookup, copy, exchange |
| MethodSearch | method_search.dfy | own chain, then category search |
| Dispatch | dispatch.dfy | `objc_update_dtable` |
| Initializer | initializer.dfy | `initialize_class`, `objc_initialize_class` |
| Loader | loader.dfy | `call_method`, `has_load`, `call_load`, `objc_register_all_classes` |
| Reflection | reflection.dfy | the read-only queries |
| Replace | replace.dfy | `class_replaceMethod`, `method_exchangeImplementations` |
| TypeEncoding | type_encoding.dfy | the type-encoding scanner |

## Model

| member | source | states |
|---|---|---|
| RuntimeTypes.ToInt32 | Frameworks/objcrt/runtime.h:73 | reading a 32-bit word as `int` gives a value in [-2^31, 2^31) congruent to it modulo 2^32 |
| RuntimeTypes.Wrap | Frameworks/objcrt/class.c:275 | storing an int into an `unsigned long` keeps it modulo 2^32 |
| RuntimeTypes.ToInt32Wrap | Frameworks/objcrt/class.c:275 | an in-range int stored into the word and read back as `int` is unchanged |
| RuntimeTypes.SetFlag | Frameworks/objcrt/class.c:301-302 | `info \|= f` sets f and leaves each of the other six flags as it was |
| RuntimeTypes.FlagsDistinctBits | Frameworks/objcrt/runtime.h:87-95 | every `OBJC_CLASS_INFO_*` value is a single bit and no two share a bit |
| RuntimeTypes.SetFlagKeepsOthers | Frameworks/objcrt/runtime.h:87-95 | or-ing one flag in never changes another flag |
| RuntimeTypes.SetFlagMonotonic | Frameworks/objcrt/class.c:171 | or-ing in a flag never clears a flag that was set |
| ObjcRuntime.Runtime.constructor | Frameworks/objcrt/class.c:70-76 | the state before registration: no class table, no record registered, only the empty dispatch table, empty load queue and trace |
| ObjcRuntime.Runtime.ClassNameToClass | Frameworks/objcrt/class.c:112-125 | Nil exactly when there is no table yet or the name is unbound; otherwise the bound class, which is a registered class record |
| ObjcRuntime.Runtime.RegisterClass | Frameworks/objcrt/class.c:67-87 | the table (created if absent) binds the class's name to it and every other name as before; the class and its metaclass point at the empty dispatch table |
| ObjcRuntime.Runtime.RegisterAlias | Frameworks/objcrt/class.c:89-98 | NO exactly when there is no table; otherwise the alias is bound to the class and every other binding is unchanged |
| ObjcRuntime.PointAtEmptyKeepsDtablesOk | Frameworks/objcrt/class.c:78-85 | pointing a class and its metaclass at `empty_dtable` keeps every dispatch-table pointer valid |
| ObjcRuntime.BindKeepsNamesOk | Frameworks/objcrt/class.c:95 | binding a name to a registered class keeps the registry invariant |
| ObjcRuntime.RegisterKeepsOk | Frameworks/objcrt/class.c:73-86 | registering a class adds it and its metaclass to the registered records and keeps the invariant |
| Status.SetInfo | Frameworks/objcrt/class.c:171 | `cls->info \|= f` on one record: that record gains f, nothing else in the runtime changes, and the invariant holds |
| Status.Marked | Frameworks/objcrt/class.c:324-325 | the records of a set gain flag f, all else is unchanged |
| Status.MarkedPlus | Frameworks/objcrt/class.c:324-325 | marking one more record is a single-record update of the marked map |
| Status.LinkableAgree | Frameworks/objcrt/class.c:251-263 | whether `setup_class` can link a class does not change as records only gain flags and links |
| Status.GrowsTrans | Frameworks/objcrt/class.c:251-263 | "only gains flags and links" composes |
| Status.SetupGrows | Frameworks/objcrt/class.c:246-303 | `setup_class` keeps the invariant and only gains flags and links that were linkable |
| Status.MarkedGrows | Frameworks/objcrt/class.c:171 | setting LOADED, DTABLE or INITIALIZED on any set only gains flags |
| Status.Pending | Frameworks/objcrt/class.c:160-172 | the classes a walk up from c still has to visit: all lack the flag, the walk ends at c, and it is empty exactly when c has the flag |
| Status.PendingOrdered | Frameworks/objcrt/class.c:163-167 | each pending class's superclass is the one before it; the first has no superclass or one with the flag already set |
| Status.PendingDone | Frameworks/objcrt/class.c:171 | once the walk's classes are flagged, nothing is pending for c |
| Status.MarkedKeepsOk | Frameworks/objcrt/class.c:324-325 | setting LOADED or INITIALIZED on any set of records keeps the record invariant |
| Status.OkHooks | Frameworks/objcrt/class.c:127-141 | valid records whose method lists are in the batches can run hooks: every class has its metaclass and a superclass of lower rank |
| Status.GrowsChains | Frameworks/objcrt/class.c:246-303 | only gaining flags and links keeps every method list among the batches |
| Hierarchy.TakeEntries | Frameworks/objcrt/class.c:233 | the entries of a subclass list are the elements before the first Nil |
| Hierarchy.AppendEntryEntries | Frameworks/objcrt/class.c:216-244 | adding to a Nil-terminated list keeps it terminated and its entries become the old ones followed by the new class |
| Hierarchy.SlideOffsets | Frameworks/objcrt/class.c:294 | each mirrored ivar offset is increased by the slide modulo 2^32 |
| Hierarchy.SlideIvars | Frameworks/objcrt/class.c:291-293 | each ivar's offset is increased by the slide modulo 2^32, name and type kept |
| Hierarchy.LinkedSizeAddsSuperSize | Frameworks/objcrt/class.c:273-299 | when the first ivar's offset is not negative, a subclass's size becomes its declared size plus its superclass's size |
| Hierarchy.RootSizeIsDeclared | Frameworks/objcrt/class.c:275-299 | a root class's size becomes its declared size |
| Hierarchy.LinkedMirrorAgrees | Frameworks/objcrt/class.c:294-295 | after the slide the mirrored offsets equal the ivar offsets, which is the `assert` at line 295 |
| Hierarchy.LinkedIvarsMoveTogether | Frameworks/objcrt/class.c:280-297 | every ivar moves by the same slide modulo 2^32 (the superclass size, grown by a negative first offset) and keeps its name |
| Hierarchy.LinkStep | Frameworks/objcrt/class.c:265-302 | linking one class keeps the set of records and each record's name, metaclass and kind |
| Hierarchy.LinkStepOk | Frameworks/objcrt/class.c:265-302 | linking a class whose superclass is linked keeps the runtime invariant |
| Hierarchy.Linking | Frameworks/objcrt/class.c:254-263 | the classes `setup_class(c)` links: c's unlinked ancestors that can be linked; c is among them exactly when it is unlinked and linkable |
| Hierarchy.Setup | Frameworks/objcrt/class.c:246-303 | `setup_class` keeps the set of records and each record's identity |
| Hierarchy.Resolved | Frameworks/objcrt/class.c:254-258 | the superclass name resolves exactly when it is present and bound, to the bound class |
| Hierarchy.SetupSpec | Frameworks/objcrt/class.c:246-303 | `setup_class` keeps the invariant and links exactly the classes of `Linking`, each as `LinkedRecord` describes |
| Hierarchy.SetupUnfold | Frameworks/objcrt/class.c:254-269 | the superclass is set up first; c is linked under it only if it became SETUP, and otherwise nothing more changes |
| Hierarchy.SetupLinks | Frameworks/objcrt/class.c:251-302 | afterwards a record has SETUP exactly when it had it or was linked (or is the metaclass of a linked class); c and its metaclass have SETUP exactly when c is linkable |
| Hierarchy.SetupUnlinkable | Frameworks/objcrt/class.c:257-263 | when c cannot be linked nothing changes |
| Hierarchy.SetupIdempotent | Frameworks/objcrt/class.c:251-252 | a second `setup_class(c)` changes nothing |
| Hierarchy.SetupLinksClass | Frameworks/objcrt/class.c:265-302 | a linked class points at its resolved superclass; its metaclass points at the superclass's metaclass, or at the class itself for a root; both have SETUP; the record is slid |
| Hierarchy.LinkPointsBack | Frameworks/objcrt/class.c:265-269 | linking keeps both halves: every subclass-list entry names the owner as its superclass, and unlinked records have no superclass |
| Hierarchy.LinkEntriesBack | Frameworks/objcrt/class.c:265-269 | after a link every subclass-list entry still names its list's owner as superclass |
| Hierarchy.LinkUnlinkedFree | Frameworks/objcrt/class.c:265-269 | after a link a record that is still unlinked has no superclass |
| Hierarchy.LinkedTwoWay | Frameworks/objcrt/class.c:265-269 | linking a class under a superclass keeps "listed exactly when pointing at the owner" |
| Hierarchy.LinkKeepsExact | Frameworks/objcrt/class.c:265-271 | linking keeps the exact subclass lists: every record with a superclass is listed by it, except a root metaclass |
| Hierarchy.LinkStepKeepsExact | Frameworks/objcrt/class.c:265-271 | `LinkStep` on a linkable class keeps the exact subclass lists |
| Hierarchy.SetupKeepsExact | Frameworks/objcrt/class.c:246-303 | `setup_class` keeps the exact subclass lists |
| Hierarchy.SetupBelowKeepsExact | Frameworks/objcrt/class.c:260-271 | if setting up the superclass keeps the exact subclass lists, so does setting up the class |
| Hierarchy.RootMetaUnlisted | Frameworks/objcrt/class.c:271 | as written: a root class's metaclass gets the root class as superclass but is in no subclass list, so "listed iff pointing at the owner" fails |
| Hierarchy.LinkStepFixed | Frameworks/objcrt/class.c:268-271 | the corrected link keeps the records and their identities |
| Hierarchy.LinkStepFixedKeepsTwoWay | Frameworks/objcrt/class.c:268-271 | with the root metaclass added to the root's list, every record with a superclass is listed by it, with no exception |
| Hierarchy.RootFixTwoWay | Frameworks/objcrt/class.c:268-271 | appending the root metaclass to the root's list restores "listed exactly when pointing at the owner" |
| Linker.AddSubclass | Frameworks/objcrt/class.c:216-244 | the superclass's list gains the class at the end before the Nil terminator; its earlier entries and every other record are unchanged |
| Linker.SlideIvarList | Frameworks/objcrt/class.c:291-296 | the loop moves each ivar offset and its mirror by the slide |
| Linker.NegateThenAdd | Frameworks/objcrt/class.c:275-299 | negating the size in place and then adding the slide equals adding the slide to the negated size, modulo 2^32 |
| Linker.Slid | Frameworks/objcrt/class.c:273-302 | the slid record is the linked record before its SETUP flag is set |
| Linker.SlideClass | Frameworks/objcrt/class.c:273-299 | the class's size is negated and the superclass's size added; when that slide is nonzero the ivars and mirrors move with it |
| Linker.LinkPointers | Frameworks/objcrt/class.c:265-271 | sets the class's superclass and its metaclass's superclass (the class itself for a root); under a superclass, appends the class and its metaclass to the superclass's and its metaclass's lists; other records unchanged |
| Linker.LinkWrites | Frameworks/objcrt/class.c:265-302 | all writes of one link, proved to give the shape `LinkStep` describes |
| Linker.SetupKeepsValid | Frameworks/objcrt/class.c:246-303 | `setup_class` keeps every part of the runtime invariant |
| Linker.SetupValid | Frameworks/objcrt/class.c:246-303 | a runtime whose records are `Setup` of valid records is valid |
| Linker.LinkRoot | Frameworks/objcrt/class.c:270-302 | linking a root class equals `Setup` |
| Linker.LinkUnder | Frameworks/objcrt/class.c:262-302 | linking under a superclass that became SETUP equals `Setup` |
| Linker.SetupClass | Frameworks/objcrt/class.c:246-303 | the recursive method leaves exactly the records `Setup` describes and keeps the invariant |
| Linker.LookupClass | Frameworks/objcrt/class.c:426-447 | Nil for an unbound name; otherwise the class is set up, and the result is the class exactly when it can be linked, now with SETUP |
| Linker.SetupCalls | Frameworks/objcrt/class.c:251-260 | the chain of nested `setup_class` calls that ends within the fuel begins at c |
| Linker.CycleNeverReturns | Frameworks/objcrt/class.c:254-260 | as written: on a cycle of superclass names the nested calls never end, whatever the fuel |
| Linker.SelfNamedCycle | Frameworks/objcrt/class.c:254-260 | a class whose superclass name is its own name forms such a cycle |
| Linker.SetupCallsFuel | Frameworks/objcrt/class.c:251-260 | once the calls end within some fuel, more fuel gives the same chain |
| Linker.RankedSetupReturns | Frameworks/objcrt/class.c:246-263 | corrected: with every name bound to a class of lower rank the nested calls end |
| Linker.SelfNamedNotRanked | Frameworks/objcrt/class.c:67-87 | the registrations the model admits exclude the self-named class |
| Linker.SetupCallsChecked | Frameworks/objcrt/class.c:251-260 | corrected: the nested calls with a visited set; any chain returned begins at c |
| Linker.CheckedRefusesCycle | Frameworks/objcrt/class.c:254-260 | corrected: from any class on a cycle of superclass names the checked walk stops with None instead of recursing forever |
| Linker.CheckedAgrees | Frameworks/objcrt/class.c:251-260 | corrected: on ranked records the checked walk returns exactly the chain of nested calls the source makes |
| MethodLists.BatchRefs | Frameworks/objcrt/class.c:638-642 | the addresses of a batch's methods, in order |
| MethodLists.RefsAgree | Frameworks/objcrt/class.c:621-652 | the chain's method addresses, in order, name exactly its methods; their number is the sum of the batch counts |
| MethodLists.RefsMembership | Frameworks/objcrt/class.c:621-652 | an address is listed exactly when its batch is in the chain and its index is in range |
| MethodLists.RefsCount | Frameworks/objcrt/class.c:625-629 | the number of method addresses equals the number of methods |
| MethodLists.FlattenSplit | Frameworks/objcrt/class.c:190-194 | the methods of a chain are those of a prefix followed by those of the rest |
| MethodLists.FirstMatch | Frameworks/objcrt/class.c:664-666 | the index of the first method with the uid, and None exactly when no method has it |
| MethodLists.FirstRef | Frameworks/objcrt/class.c:664-666 | the address of the first method with the uid in chain order; None exactly when the chain has none |
| MethodLists.FirstMatchAppend | Frameworks/objcrt/class.c:664-700 | searching a concatenation finds the first part's match before the second's |
| MethodLists.FirstRefHit | Frameworks/objcrt/class.c:664-666 | the address where the nested loops stop is the first match |
| MethodLists.ScanChain | Frameworks/objcrt/class.c:664-677 | the nested loops over the chain return `FirstRef` |
| MethodLists.MatchingImps | Frameworks/objcrt/class.c:136-140 | the implementations whose selector matches, never more than the methods |
| MethodLists.MatchingNone | Frameworks/objcrt/class.c:143-158 | no match exactly when no method has the uid |
| MethodLists.LastWithKey | Frameworks/objcrt/class.c:190-207 | the last method whose 32-bit key equals k, so later writes win |
| MethodLists.OverlayLookup | Frameworks/objcrt/class.c:190-207 | after the `objc_sparsearray_set` calls a key holds the last write, or the old value if never written |
| MethodLists.OverlayAppend | Frameworks/objcrt/class.c:190-207 | writing one sequence and then another equals writing their concatenation |
| MethodLists.OverlayKeys | Frameworks/objcrt/class.c:190-207 | the table's keys are the old keys plus the written ones |
| MethodLists.Exchange | Frameworks/objcrt/class.c:853-860 | the two methods trade implementations, keep their selectors, and every other method is unchanged |
| MethodLists.ExchangeInvolution | Frameworks/objcrt/class.c:853-860 | exchanging twice restores the batches |
| MethodLists.SetImp | Frameworks/objcrt/class.c:669 | one method's implementation is replaced, nothing else |
| MethodLists.CopyMethodList | Frameworks/objcrt/class.c:621-652 | the returned array is every method address of the chain in link order, and the count is the sum of the batch counts |
| MethodLists.CopyBatch | Frameworks/objcrt/class.c:638-643 | the inner loop appends the batch's addresses in order |
| MethodLists.ApplyChain | Frameworks/objcrt/class.c:190-194 | the loop over the own chain overlays its methods in order |
| MethodSearch.CatMethodsSplit | Frameworks/objcrt/class.c:679-701 | the category methods split at any category index |
| MethodSearch.SearchOrderAt | Frameworks/objcrt/class.c:664-701 | the search order is the own chain, then each category's list in turn |
| MethodSearch.CatsFirst | Frameworks/objcrt/class.c:679-701 | the first category method with the uid, which has that uid |
| MethodSearch.CatHit | Frameworks/objcrt/class.c:679-701 | a hit in category i is the first match of the whole order when nothing earlier matches |
| MethodSearch.CatsFirstMatch | Frameworks/objcrt/class.c:679-701 | searching the categories from i finds the first match of the whole search order |
| MethodSearch.SearchFirst | Frameworks/objcrt/class.c:664-701 | own chain first, then categories: the address of the first method with the uid in that order, or None when none has it |
| MethodSearch.Search | Frameworks/objcrt/class.c:664-701 | the loops return `SearchFirst` |
| MethodSearch.ClassSearch | Frameworks/objcrt/class.c:679-684 | the search for a record uses categories' class methods for a metaclass and instance methods otherwise |
| MethodSearch.ExchangeShape | Frameworks/objcrt/class.c:853-860 | an exchange keeps every batch's length and every selector |
| MethodSearch.ShapeClassSearch | Frameworks/objcrt/class.c:853-860 | changing only implementations never changes which method a search finds |
| Dispatch.Rebuild | Frameworks/objcrt/class.c:181-209 | one rebuild keeps the pointers valid and leaves the record with a private table |
| Dispatch.RebuildFrame | Frameworks/objcrt/class.c:184-209 | rebuilding one record leaves every other record's table unchanged |
| Dispatch.RebuildLookup | Frameworks/objcrt/class.c:184-209 | a key holds the last own or category method with that key, otherwise the superclass's entry |
| Dispatch.Visit | Frameworks/objcrt/class.c:181-213 | the records the recursion rebuilds: empty when the record lacks DTABLE, else the record first, then its subclasses |
| Dispatch.RebuildAll | Frameworks/objcrt/class.c:174-214 | rebuilding a sequence of records keeps the pointers valid |
| Dispatch.RebuildAllAppend | Frameworks/objcrt/class.c:211-213 | rebuilding a concatenation is rebuilding one part after the other |
| Dispatch.CatMethodsStep | Frameworks/objcrt/class.c:196-208 | one more category appends its list (class or instance side) to the methods written |
| Dispatch.BuildTable | Frameworks/objcrt/class.c:187-209 | the loops leave the copied superclass table overlaid with the own chain, then each category's list |
| Dispatch.RebuildTables | Frameworks/objcrt/class.c:181-209 | the method equals `Rebuild` |
| Dispatch.RebuildOne | Frameworks/objcrt/class.c:181-209 | rebuilding one record on the runtime gives `Rebuild` of the old tables |
| Dispatch.Update | Frameworks/objcrt/class.c:174-214 | the recursion keeps pointers valid and keeps the set of records with a table |
| Dispatch.UpdateRebuildsVisited | Frameworks/objcrt/class.c:174-214 | the recursion rebuilds exactly the records of `Visit`, in that order |
| Dispatch.RebuildPointer | Frameworks/objcrt/class.c:184-185 | a private table keeps its address; the rebuilt record has a private one |
| Dispatch.UpdateKeepsPrivate | Frameworks/objcrt/class.c:184-185 | the recursion never moves an existing private table |
| Dispatch.UpdateGivesPrivate | Frameworks/objcrt/class.c:184-185 | after the update the record no longer shares `empty_dtable` |
| Dispatch.UpdateDtable | Frameworks/objcrt/class.c:174-214 | the method leaves the tables `Update` describes and changes no record, batch or category |
| Dispatch.UpdateSubclasses | Frameworks/objcrt/class.c:211-213 | the loop over the subclass list updates each entry in order |
| Initializer.InitInfo | Frameworks/objcrt/class.c:314-325 | DTABLE and INITIALIZED set, the other flags kept |
| Initializer.Flag2 | Frameworks/objcrt/class.c:314-315 | a class and its metaclass gain the flag, nothing else changes |
| Initializer.Init2 | Frameworks/objcrt/class.c:314-325 | a class and its metaclass become INITIALIZED, nothing else changes |
| Initializer.InitSet | Frameworks/objcrt/class.c:308-325 | the records `initialize_class(c)` marks: none when c is initialized, otherwise c and its metaclass among them |
| Initializer.InitMarks | Frameworks/objcrt/class.c:305-328 | `initialize_class` keeps the set of records |
| Initializer.InitOrder | Frameworks/objcrt/class.c:305-328 | every hook it calls is `initialize`, on a pending class, which already has DTABLE and INITIALIZED set (set before the call) |
| Initializer.InitNothing | Frameworks/objcrt/class.c:308-309 | an initialized class: nothing changes, no hook runs |
| Initializer.InitAgain | Frameworks/objcrt/class.c:308-309 | a second `initialize_class` changes nothing and runs no hook |
| Initializer.InitTables | Frameworks/objcrt/class.c:305-328 | the tables `initialize_class` rebuilds, superclasses first: the set of records with a table is unchanged |
| Initializer.InitTablesAgain | Frameworks/objcrt/class.c:308-309 | a second `initialize_class` rebuilds no table |
| Initializer.UpdateKeeping | Frameworks/objcrt/class.c:317-318 | one `objc_update_dtable` keeps the invariant, the records and the trace, and keeps private tables |
| Initializer.BuildBothTables | Frameworks/objcrt/class.c:317-318 | class then metaclass tables rebuilt, both private |
| Initializer.SetInfoBoth | Frameworks/objcrt/class.c:314-315 | the flag set on a class and its metaclass, nothing else changes |
| Initializer.MarkAndBuild | Frameworks/objcrt/class.c:314-318 | DTABLE on both, then both tables rebuilt: the tables become exactly `BuildBoth` of the flagged records |
| Initializer.MarkAndRun | Frameworks/objcrt/class.c:324-327 | INITIALIZED on both, then the class's `initialize` methods called, in chain order |
| Initializer.InitializeOwn | Frameworks/objcrt/class.c:314-327 | the steps for the class itself: both flags on both records, the tables exactly `BuildBoth`, private tables, hooks appended |
| Initializer.InitializeClass | Frameworks/objcrt/class.c:305-328 | the records become `InitMarks`, the trace gains `InitEvents` (superclasses first), the tables become exactly `InitTables`, and every record initialized gets a private table |
| Initializer.InitializeTail | Frameworks/objcrt/class.c:311-327 | after the superclass is done, the class's own steps complete `InitMarks`, `InitEvents` and `InitTables` |
| Initializer.ObjcInitializeClass | Frameworks/objcrt/class.c:330-358 | nothing changes when the class is initialized or cannot be linked; otherwise `setup_class` and then `initialize_class`, leaving c INITIALIZED and the tables exactly `InitTables` of the set-up records; in every case the records, trace and tables are exactly `ObjcInit` of the old ones |
| Initializer.InitKeepsClasses | Frameworks/objcrt/class.c:330-358 | class records stay class records |
| Initializer.ObjcInitInitializes | Frameworks/objcrt/class.c:330-358 | after `objc_initialize_class(c)` c is INITIALIZED exactly when it already was or could be linked; a class that cannot be linked leaves everything as it was |
| Initializer.ObjcInitAgain | Frameworks/objcrt/class.c:333-334 | a second `objc_initialize_class(c)` changes no record or table and runs no hook |
| Loader.HookEvents | Frameworks/objcrt/class.c:137-140 | one call event per matching implementation, in order |
| Loader.DefinesIffCalls | Frameworks/objcrt/class.c:127-158 | `has_load` is true exactly when `call_method(cls, "load")` calls something |
| Loader.MatchingAppend | Frameworks/objcrt/class.c:136-140 | the matches of a concatenated chain are the first part's then the second's |
| Loader.CallBatch | Frameworks/objcrt/class.c:137-140 | the inner loop calls every matching method of one batch, in order |
| Loader.CallMethod | Frameworks/objcrt/class.c:127-141 | every method of the metaclass chain with the hook's uid is called once, in chain order |
| Loader.HasLoad | Frameworks/objcrt/class.c:143-158 | true exactly when the metaclass chain holds a method with the `load` uid |
| Loader.LoadNothing | Frameworks/objcrt/class.c:163-164 | a LOADED class: nothing happens |
| Loader.LoadOne | Frameworks/objcrt/class.c:169-171 | the class's own load methods run, then it gets LOADED |
| Loader.CallLoad | Frameworks/objcrt/class.c:160-172 | the records become `LoadMarks` and the trace gains `LoadEvents`: the pending ancestors' loads, superclasses first |
| Loader.LoadOrder | Frameworks/objcrt/class.c:160-172 | every hook run is `load` on a class not yet LOADED, and each pending class follows its superclass |
| Loader.LoadAgain | Frameworks/objcrt/class.c:163-164 | a second `call_load` changes nothing and calls nothing |
| Loader.LoadMarksLoaded | Frameworks/objcrt/class.c:171 | after `call_load(c)` c is LOADED |
| Loader.LoadMarksClosed | Frameworks/objcrt/class.c:160-172 | `call_load` keeps "a LOADED class's superclass is LOADED" |
| Loader.BindAllLatest | Frameworks/objcrt/class.c:365-369 | after registering the symtab's classes, each name is bound to the last class registered under it |
| Loader.BindAllOthers | Frameworks/objcrt/class.c:365-369 | names the symtab does not use keep their bindings |
| Loader.PointAllHas | Frameworks/objcrt/class.c:365-369 | every symtab class points at the empty table; existing pointers stay |
| Loader.RegisterDefs | Frameworks/objcrt/class.c:365-372 | the first loop leaves the table `BindAll` and the dtable pointers `PointAll`; the table exists afterwards if it did or a class was registered |
| Loader.SetupAndLoad | Frameworks/objcrt/class.c:377-381 | the records and trace become exactly `SetupLoad`: `setup_class`, then `call_load` when the class got SETUP; it reports whether the class could be linked |
| Loader.SetupLoadGrows | Frameworks/objcrt/class.c:377-381 | `setup_class` then `call_load` keeps the record invariant, only gains flags and links, leaves a linkable class LOADED and changes nothing for one that cannot be linked |
| Loader.SetupLoadLoads | Frameworks/objcrt/class.c:377-381 | the hooks `setup_class` then `call_load` run are all `load` |
| Loader.SetupKeeps | Frameworks/objcrt/class.c:377-378 | after `setup_class` the class has SETUP exactly when it could be linked |
| Loader.SetupLoadIs | Frameworks/objcrt/class.c:377-381 | `SetupLoad` is `call_load` on the set-up records exactly when the class got SETUP, else the set-up records and no event |
| Loader.SetupLoadAfter | Frameworks/objcrt/class.c:377-381 | the records and trace of the method's two branches are exactly `SetupLoad`; a linkable class ends LOADED |
| Loader.LoadMarksGrow | Frameworks/objcrt/class.c:160-172 | `call_load` keeps the record invariant, only gains flags, and leaves the class LOADED |
| Loader.DeferredHas | Frameworks/objcrt/class.c:377-395 | the deferred classes are exactly the symtab classes with a load method that cannot be linked |
| Loader.DefersAgree | Frameworks/objcrt/class.c:377-395 | whether a class is deferred does not change while records only gain flags and links |
| Loader.MarkWithoutLoad | Frameworks/objcrt/class.c:396-397 | a class without `load` gets LOADED, and nothing else changes |
| Loader.Enqueue | Frameworks/objcrt/class.c:383-394 | the load queue gains the class at the end |
| Loader.LoadOrQueue | Frameworks/objcrt/class.c:378-395 | records and trace become exactly `SetupLoad`; a linkable class ends LOADED; one that cannot be linked joins the queue |
| Loader.FirstPassStep | Frameworks/objcrt/class.c:375-397 | one class of the second loop: records and trace exactly `FirstStep`; queued exactly when it defers, LOADED otherwise |
| Loader.FirstStepIs | Frameworks/objcrt/class.c:375-397 | one symtab class: `SetupLoad` when its metaclass chain has `load`, else only its LOADED flag set |
| Loader.FirstStepGrows | Frameworks/objcrt/class.c:375-397 | one class of the second loop keeps the record invariant and only gains flags and links |
| Loader.FirstStepLoads | Frameworks/objcrt/class.c:375-397 | a class that does not defer ends LOADED, and only `load` hooks run |
| Loader.FirstStepAfter | Frameworks/objcrt/class.c:375-397 | the records, trace and queue of the method's branches are exactly `FirstStep` and the queue gains the class exactly when it defers |
| Loader.LoadOrMark | Frameworks/objcrt/class.c:375-397 | one class of the second loop on the runtime: records and trace exactly `FirstStep`, the queue gains the class exactly when it defers |
| Loader.FirstRunGrows | Frameworks/objcrt/class.c:374-398 | the second loop keeps the record invariant and only gains flags and links |
| Loader.FirstRunLoads | Frameworks/objcrt/class.c:374-398 | the second loop runs only `load` hooks |
| Loader.FirstRunNext | Frameworks/objcrt/class.c:374-398 | one more class of the second loop extends `FirstRun` by that class's `FirstStep` |
| Loader.FirstRunNextEvents | Frameworks/objcrt/class.c:374-398 | the events of the first n classes are those of the first n - 1 followed by the last class's |
| Loader.FirstPass | Frameworks/objcrt/class.c:374-398 | the records and trace become exactly `FirstRun` over the symtab; the queue gains exactly `Deferred`, in symtab order; every other symtab class ends LOADED |
| Loader.Unqueue | Frameworks/objcrt/class.c:407-418 | removing slot i by moving the last entry in: one entry shorter, the same entries less that one |
| Loader.UnqueueHas | Frameworks/objcrt/class.c:407-418 | no entry is added, and only slot i's entry can be lost |
| Loader.RetryKeeps | Frameworks/objcrt/class.c:400-423 | the third loop as written: no class joins the queue and a class that cannot be linked stays |
| Loader.RetrySkips | Frameworks/objcrt/class.c:401-423 | as written: with queue [1, 2] and both linkable, one pass leaves [2] queued |
| Loader.RetryFixedDrains | Frameworks/objcrt/class.c:400-423 | corrected: re-examining slot i after a removal leaves exactly the classes that cannot be linked |
| Loader.Dequeue | Frameworks/objcrt/class.c:407-418 | the runtime's queue becomes `Unqueue` |
| Loader.RetryNext | Frameworks/objcrt/class.c:401-422 | one iteration: records and trace exactly `SetupLoad` of slot i, the slot removed when linkable, and the queue's future equal to `Retry` of the old queue |
| Loader.RetryEntry | Frameworks/objcrt/class.c:401-406 | slot i: records and trace exactly `SetupLoad` of the entry; linked exactly when the entry can be linked, and then LOADED |
| Loader.RetryStepOk | Frameworks/objcrt/class.c:401-418 | one entry of the third loop keeps the invariant, only gains flags and links, and leaves a queue of registered class records |
| Loader.RetryRunNext | Frameworks/objcrt/class.c:401-422 | one more iteration leaves the rest of `RetryRun` unchanged: records and trace still end where the whole run does |
| Loader.RetryRunGrows | Frameworks/objcrt/class.c:400-423 | the third loop keeps the record invariant and only gains flags and links |
| Loader.RetryRunLoads | Frameworks/objcrt/class.c:400-423 | the third loop runs only `load` hooks |
| Loader.RetryQueue | Frameworks/objcrt/class.c:400-423 | the queue becomes `Retry` of the old one as written and the records and trace exactly `RetryRun`; each class that left it is LOADED; only `load` hooks run |
| Loader.QueueAfterFirstPass | Frameworks/objcrt/class.c:374-398 | after the second loop the queue holds only registered classes from the old queue or the symtab |
| Loader.QueueSettles | Frameworks/objcrt/class.c:400-423 | after the third loop every queued class was queued before, and every class that cannot be linked is still queued |
| Loader.RetrySettles | Frameworks/objcrt/class.c:400-423 | the records and trace become exactly `RetryRun` of the old queue; every symtab class is LOADED or queued; classes that cannot be linked stay queued |
| Loader.SymtabSettles | Frameworks/objcrt/class.c:374-423 | after both loops every symtab class is LOADED or in the queue |
| Loader.LoadSymtab | Frameworks/objcrt/class.c:374-423 | the second and third loops: records and trace exactly `SymtabRun`; every symtab class ends LOADED or queued, the queue holds only old entries or symtab classes, and only `load` hooks run |
| Loader.SymtabRunIs | Frameworks/objcrt/class.c:374-423 | the second loop's records, trace and queue followed by the third loop's give exactly `SymtabRun` |
| Loader.SymtabRunGrows | Frameworks/objcrt/class.c:374-423 | both loops keep the record invariant and only gain flags and links |
| Loader.SymtabRunLoads | Frameworks/objcrt/class.c:374-423 | both loops run only `load` hooks |
| Loader.RegisterAllClasses | Frameworks/objcrt/class.c:360-424 | the table binds the symtab's names; records and trace exactly `SymtabRun`; every symtab class is LOADED or in the queue; no class that cannot be linked leaves it; every hook run is a `load` |
| Loader.LoadExampleEvents | Frameworks/objcrt/class.c:160-172 | on the three-class example, `call_load(C)` runs only C's load |
| Loader.LoadSkipsAncestor | Frameworks/objcrt/class.c:396-397 | as written: B is marked LOADED without its load walk, so `call_load(C)` runs C's load while A, which has a load method, is still not LOADED |
| Loader.LoadExampleOpen | Frameworks/objcrt/class.c:396-397 | as written: in the example, after `call_load(C)` a LOADED class has a superclass that is not LOADED |
| Loader.MarkWithoutLoadFixedClosed | Frameworks/objcrt/class.c:396-397 | corrected: marking by `call_load` keeps every LOADED class's superclass LOADED |
| Reflection.Supers | Frameworks/objcrt/class.c:481 | the records the superclass walk visits: c first, each the superclass of the one before, ending at a root |
| Reflection.SupersSuffix | Frameworks/objcrt/class.c:481 | the walk from any visited record is the rest of the walk |
| Reflection.KindOfTransitive | Frameworks/objcrt/class.c:473-486 | is-kind-of is transitive |
| Reflection.KindOfAntisymmetric | Frameworks/objcrt/class.c:473-486 | two classes each a kind of the other are the same class |
| Reflection.IsKindOf | Frameworks/objcrt/class.c:481-485 | the loop answers YES exactly when cls2 is on cls1's superclass walk |
| Reflection.IsKindOfClass | Frameworks/objcrt/class.c:473-486 | the records, trace and tables become exactly `objc_initialize_class(cls1)` then `objc_initialize_class(cls2)` of the old state (`InitBoth`); then YES exactly when cls2 is on cls1's walk over those records |
| Reflection.InitializeBoth | Frameworks/objcrt/class.c:478-479 | the two `objc_initialize_class` calls leave exactly `InitBoth` of the old state |
| Reflection.InitBothAfter | Frameworks/objcrt/class.c:478-479 | the state after the first call and the state after the second compose to `InitBoth` |
| Reflection.FindIvar | Frameworks/objcrt/class.c:501-510 | the index of the first ivar with the name; None when there is no list or no such ivar |
| Reflection.GetInstanceVariable | Frameworks/objcrt/class.c:496-513 | the records, trace and tables become exactly `ObjcInit` of the old state; then the first ivar with the name in the initialized class |
| Reflection.ChainHolds | Frameworks/objcrt/class.c:522-531 | the inner loops find the method address exactly when it is in the chain |
| Reflection.InstanceMethod | Frameworks/objcrt/class.c:520-536 | the walk returns the given method address exactly when some record on the superclass walk holds it |
| Reflection.GetInstanceMethod | Frameworks/objcrt/class.c:515-537 | the records, trace and tables become exactly `ObjcInit` of the old state; then the walk comparing methods by address over those records |
| Reflection.FirstTrue | Frameworks/objcrt/class.c:555-574 | the first position on the walk whose record defines the uid |
| Reflection.OwnChainHasAlong | Frameworks/objcrt/class.c:555-574 | for each visited record, whether its own chain has the uid |
| Reflection.Provider | Frameworks/objcrt/class.c:555-574 | the position on the walk of the first record whose own chain has the uid |
| Reflection.MethodFromClass | Frameworks/objcrt/class.c:555-577 | TRUE exactly when the first record on the walk with the uid is named `fromClass` |
| Reflection.IsMethodFromClass | Frameworks/objcrt/class.c:550-578 | the same from a class: FALSE when no record has the uid |
| Reflection.GetTypeEncoding | Frameworks/objcrt/class.c:580-619 | the types of the first method with the uid in the own chain, then the categories' instance methods; None when there is none |
| Reflection.Occupied | Frameworks/objcrt/class.c:1002-1012 | one object per occupied bucket, so never more than there are buckets |
| Reflection.KeysOf | Frameworks/objcrt/class.c:1002-1012 | the names of the occupied buckets |
| Reflection.OccupiedCount | Frameworks/objcrt/class.c:1002-1012 | with each name in one bucket, the count of occupied buckets is the count of names |
| Reflection.NamesAreKeys | Frameworks/objcrt/class.c:1002-1012 | the table's names are the names in its buckets |
| Reflection.GetClassList | Frameworks/objcrt/class.c:991-1017 | 0 with no table; otherwise the number of names bound, aliases included; with a buffer and a positive maxCount, the first maxCount objects in bucket order are written |
| Replace.NewList | Frameworks/objcrt/class.c:705-712 | the new batch holds one method with the uid, types and implementation |
| Replace.Prepended | Frameworks/objcrt/class.c:708-714 | the class's chain gains the new batch in front; nothing else changes |
| Replace.PrependKeepsValid | Frameworks/objcrt/class.c:705-714 | prepending a fresh batch keeps the invariant |
| Replace.ReplacedFound | Frameworks/objcrt/class.c:664-700 | replacing the found method's implementation keeps it the method found, now with the new implementation |
| Replace.PrependedFound | Frameworks/objcrt/class.c:705-714 | when nothing matched, the search finds the new batch's method |
| Replace.Replaced | Frameworks/objcrt/class.c:654-721 | the records keep their keys and the class keeps its flags |
| Replace.ReplacedKeepsValid | Frameworks/objcrt/class.c:654-721 | `class_replaceMethod` keeps the invariant |
| Replace.ReplacedFinds | Frameworks/objcrt/class.c:654-721 | afterwards the search finds a method with the new implementation: the same method, returning the old implementation, when one matched; the new one, returning nil, when none did |
| Replace.ReplaceValues | Frameworks/objcrt/class.c:664-714 | the loops compute `Replaced` |
| Replace.Rebuild | Frameworks/objcrt/class.c:670 | `objc_update_dtable(cls)` on the runtime, keeping the invariant |
| Replace.ReplaceMethod | Frameworks/objcrt/class.c:654-721 | the runtime takes the replaced state, returns the old implementation (nil when added), and the class's tables are updated |
| Replace.ExchangeImplementations | Frameworks/objcrt/class.c:853-860 | only the batches change, to `Exchange`; no dispatch table is rebuilt |
| Replace.ExchangeKeepsSearch | Frameworks/objcrt/class.c:853-860 | an exchange never changes which method a search finds |
| TypeEncoding.BraceEnd | Frameworks/objcrt/class.c:870-880 | the scan stops at or after its start, within the string |
| TypeEncoding.SkipNonDigits | Frameworks/objcrt/class.c:881 | the skip stays within the string and never moves back |
| TypeEncoding.SkipDigits | Frameworks/objcrt/class.c:906 | the digit loop stays within the string and never moves back |
| TypeEncoding.ScalarEnd | Frameworks/objcrt/class.c:886-897 | the default-case loop stays within the string and never moves back |
| TypeEncoding.TypeEnd | Frameworks/objcrt/class.c:934-966 | the end of one type token is within the string and not before its start |
| TypeEncoding.BraceEndMatches | Frameworks/objcrt/class.c:870-880 | the brace loop stops at the `}` that brings the depth to zero, or at the end |
| TypeEncoding.SkipNonDigitsStops | Frameworks/objcrt/class.c:881 | the skip stops at the first digit or the end |
| TypeEncoding.SkipDigitsAllDigits | Frameworks/objcrt/class.c:906 | the offset run is all digits and stops at a non-digit or the end |
| TypeEncoding.ScalarEndStops | Frameworks/objcrt/class.c:886-897 | the default loop stops at the first digit at depth zero, or the end |
| TypeEncoding.StepEnd | Frameworks/objcrt/class.c:931-985 | every step of the outer loop consumes input, so the loop ends |
| TypeEncoding.DecodeRoundTrip | Frameworks/objcrt/class.c:931-985 | the steps' tokens and offsets concatenate back to the string |
| TypeEncoding.DecodeOffsets | Frameworks/objcrt/class.c:972-976 | offsets are digit runs, and only the last can be empty |
| TypeEncoding.ScalarTokenHasNoTopLevelDigit | Frameworks/objcrt/class.c:886-897 | a scalar token holds no digit at depth zero |
| TypeEncoding.AggregateTokenShape | Frameworks/objcrt/class.c:869-882 | a struct token is a balanced brace group followed by non-digits |
| TypeEncoding.ReturnTypeIsFirstToken | Frameworks/objcrt/class.c:862-923 | the return type is the first step's token, and NULL exactly when that token is empty |
| TypeEncoding.ExampleVoidMethod | Frameworks/objcrt/class.c:925-989 | "v8@0:4" has the steps v/8, @/0, :/4, two arguments and return type "v" |
| TypeEncoding.ExampleStructReturn | Frameworks/objcrt/class.c:862-923 | a nested struct return type keeps its braces and digits |
| TypeEncoding.ScanType | Frameworks/objcrt/class.c:934-966 | the switch computes the token's end |
| TypeEncoding.ScanOffset | Frameworks/objcrt/class.c:972 | the digit loop computes the offset's end |
| TypeEncoding.NumberOfArguments | Frameworks/objcrt/class.c:925-989 | the count is the number of steps less the return type's, or 0 for an empty string |
| TypeEncoding.CopyReturnType | Frameworks/objcrt/class.c:862-923 | a non-empty prefix of the encoding, the first token; NULL when that token is empty |

## Left out

- `unsigned long` is taken as 32 bits (Frameworks/objcrt/runtime.h:73, the
  target's width). `instance_size` and ivar offsets are `U32Val` with explicit
  wrap-around.
- The `int **` indirection of `ivar_offsets` (class.c:294) is not modelled as
  pointers. Each record carries a sequence `ivarOffsets` that mirrors the values
  the pointers reach. Two ivar-offset pointers that alias the same word are not
  captured.
- `register_selectors` (class.c:100-110, 370-371) is not modelled. Selector uids
  are taken as already assigned, and the `load` and `initialize` uids are
  constants of the runtime.
- The debug `assert`s at class.c:639, 893, 912-913, 959 and 978-979 are not
  modelled as aborts. Inputs such as `""`, `"8v"` or a stray `}` abort a debug
  build there; the model returns `None` or a count, as a release build does.
  The `assert` at class.c:295 is proved instead (`Hierarchy.LinkedMirrorAgrees`).
- C strings are NUL-terminated `char` arrays. They are modelled as `seq<char>`,
  so `strcmp` is sequence equality and `*curArg` reaching NUL is the end of the
  sequence.
- The `isa` adapter of the WinRT build (`class_isa_for_class`, class.c:37-64)
  is left out: the metaclass pointer is the record's `meta` field.
  `object_getClass` and `object_setClass` (class.c:761-832) are left out too.
  `object_isMethodFromClass` and `call_method` take the object's class or
  metaclass directly.
- The global mutex, and the double-checked read in `objc_initialize_class`
  (class.c:333-346), are left out. The model is single-threaded, so the second
  test is the same as the first.
- The `load` and `initialize` implementations are never called. Each call is a
  ghost `Event` in the runtime's trace, and a hook cannot re-enter the runtime.
- The hashtable, sparse-array, selector and category primitives are not part of
  this model. The class table is a `map`, a sparse array is a `map` from the
  32-bit key, and `objc_categories_for_class` is a map from class name.
  `Reflection.GetClassList` takes the hashtable's bucket array as a parameter.
- `OBJC_ERROR` on allocation failure (class.c:224, 239, 391, 421, 706) is not
  modelled: allocation always succeeds. The `printf` warning at class.c:286 is
  dropped; the slide adjustment at
  class.c:287 is modelled.
- `objc_getClass` (class.c:449-458) is left out because it aborts on an unknown
  name; `Linker.LookupClass` models the lookup it wraps.
  `objc_enumerationMutation` (class.c:1019-1024) is left out because it only
  aborts.
- `free_class` and `objc_free_all_classes` (class.c:723-759) are left out:
  memory is never freed in the model.
- The one-line field reads are left out: `class_getName`, `class_getSuperclass`,
  `class_getInstanceSize`, `ivar_getOffset`, `class_getMethodImplementation`,
  `class_isMetaClass`, `method_getName`, `object_getClassName` and
  `objc_get_class`. Their result is a record field or a table entry of the model.
- A NULL `types` string in a method is not modelled: every selector carries a
  string.
- Reflection.IsKindOfClass: requires both arguments to be registered class
  records, while class.c:473-486 accepts any Class, metaclasses included.
- Reflection.GetInstanceVariable: requires a registered class record, while
  class.c:496-513 accepts any Class.
- Reflection.GetInstanceMethod: requires a registered class record, while
  class.c:515-537 accepts any Class.
- ObjcRuntime.Runtime.RegisterClass: requires the new binding to keep every
  superclass name pointing at a class of lower rank. class.c:67-87 accepts any
  class, including one whose superclass names form a cycle, on which
  `setup_class` never returns. See the third row under Findings.
- ObjcRuntime.Runtime.RegisterAlias: requires a registered class record and a
  ranked binding. class.c:89-98 binds any Class under any name, including a
  binding that closes a cycle of superclass names.
- Loader.RegisterAllClasses: requires each symtab class to be a class record
  with a ranked binding, for the reason given for `RegisterClass`.
- Reflection.IsKindOf: a record not yet linked has no superclass in the model,
  so the walk stops there. In the source such a record's `superclass` field
  still holds the superclass name (class.c:254), and the walk at class.c:481
  reads that string as a class. The model does not follow it.
- Reflection.InstanceMethod: stops at a record not yet linked, for the reason
  given for `IsKindOf`; the walk at class.c:524 would read the name as a class.
- Reflection.MethodFromClass: stops at a record not yet linked, for the reason
  given for `IsKindOf`; the walk at class.c:574 would read the name as a class.
- Initializer.ObjcInitializeClass: requires a registered class record, while
  class.c:330-358 also accepts a metaclass. For a metaclass not yet
  INITIALIZED the source runs `setup_class` and `initialize_class` on the
  metaclass record itself; the model covers class arguments only.
- Initializer.InitializeClass: requires a class record for the same reason. The
  source's `initialize_class` (class.c:305-328) is only reached from
  `objc_initialize_class`, and its metaclass case is left out with that one.
- Hierarchy.LinkStepFixed: is the correction only. `Linker.SetupClass` and
  everything built on it keep the link as written, so the root metaclass stays
  out of the root's subclass list everywhere else in the model.

## Findings

| source | as written | input that shows it | evidently intended | confidence | as-written member | corrected member |
|---|---|---|---|---|---|---|
| Frameworks/objcrt/class.c:400-423 | after the load queue's entry i is loaded, the last entry is moved into slot i and `i++` moves past it, so the moved entry is not retried in this pass | queue [A, B] where both can now be linked: A is loaded, B moves to slot 0, the loop ends, and B stays queued unloaded | re-examine slot i after a removal, so that every entry that can be linked is loaded | not executed | Loader.RetrySkips | Loader.RetryFixedDrains |
| Frameworks/objcrt/class.c:396-397 | a class without `+load` gets LOADED in the second loop without being linked or walking its superclasses, which cuts the recursion of `call_load` (class.c:163-167) for its subclasses | defs [B (no `+load`), C : B, A] with B : A, where A and C have `+load`: B is marked LOADED, then `call_load(C)` stops at B and runs C's load before A's | `call_load` on a linked class without `+load`, so that superclasses load first | not executed | Loader.LoadSkipsAncestor | Loader.MarkWithoutLoadFixedClosed |
| Frameworks/objcrt/class.c:254-260 | `setup_class` recurses on the class its superclass name resolves to, without a visited check | a class registered with its own name as superclass name (or two classes naming each other) | refuse or stop on a cycle of superclass names | not executed | Linker.CycleNeverReturns | Linker.CheckedRefusesCycle |
| Frameworks/objcrt/class.c:271 | a root class's metaclass gets the root class as its superclass, but is never added to the root's subclass list (class.c:268-269 add only linked pairs), so `objc_update_dtable` of a root class never reaches its metaclass | any root class, e.g. a class with no superclass name | add the root metaclass to the root class's subclass list, making "listed exactly when pointing at the owner" hold for every record | not executed | Hierarchy.RootMetaUnlisted | Hierarchy.LinkStepFixedKeepsTwoWay |
