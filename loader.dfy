/**
  * Running `+load`: call_method, has_load, call_load and
  * objc_register_all_classes with its load queue. Hooks are not executed;
  * each call appends an Event to the runtime's ghost trace.
  */
module Loader {
  import opened RuntimeTypes
  import opened MethodLists
  import opened Hierarchy
  import opened ObjcRuntime
  import opened Linker
  import opened Status

  // ---------------------------------------------------------------------
  // call_method and has_load

  /** The uid sel_registerName hands out for the hook's name. */
  function HookUid(rt: Runtime, h: Hook): nat {
    if h == Load then rt.loadUid else rt.initializeUid
  }

  /** One event per implementation, in order, all on class c seeing flags info. */
  function HookEvents(h: Hook, c: ClassId, info: Info, imps: seq<Imp>): (es: seq<Event>)
    ensures |es| == |imps|
    ensures forall i :: 0 <= i < |es| ==> es[i] == Event(h, c, imps[i], info)
  {
    if imps == [] then [] else HookEvents(h, c, info, imps[..|imps| - 1]) + [Event(h, c, imps[|imps| - 1], info)]
  }

  /** The methods of c's metaclass chain: where call_method and has_load look (`object_getClass(cls)->methodlist`). */
  function MetaMethods(recs: Records, batches: Batches, c: ClassId): seq<Method>
    requires MetaIn(recs, batches, c)
  {
    Flatten(batches, recs[recs[c].meta].methodlist)
  }

  /** What call_method(c, hook) calls: every method of the metaclass chain with the hook's uid, in chain order. */
  function ClassEvents(recs: Records, batches: Batches, h: Hook, uid: nat, c: ClassId): seq<Event>
    requires MetaIn(recs, batches, c)
  {
    HookEvents(h, c, recs[c].info, MatchingImps(MetaMethods(recs, batches, c), uid))
  }

  /** call_method on each class of xs in turn. */
  function AllEvents(recs: Records, batches: Batches, h: Hook, uid: nat, xs: seq<ClassId>): seq<Event>
    requires forall i :: 0 <= i < |xs| ==> MetaIn(recs, batches, xs[i])
  {
    if xs == [] then [] else AllEvents(recs, batches, h, uid, xs[..|xs| - 1]) + ClassEvents(recs, batches, h, uid, xs[|xs| - 1])
  }

  /** Some method of ms has the uid. */
  predicate Defines(ms: seq<Method>, uid: nat) {
    exists j :: 0 <= j < |ms| && ms[j].sel.uid == uid
  }

  /** has_load answers yes exactly when call_method("load") would call something. */
  lemma DefinesIffCalls(recs: Records, batches: Batches, h: Hook, uid: nat, c: ClassId)
    requires MetaIn(recs, batches, c)
    ensures Defines(MetaMethods(recs, batches, c), uid) <==> ClassEvents(recs, batches, h, uid, c) != []
  {
    MatchingNone(MetaMethods(recs, batches, c), uid);
  }

  /** Every event of a run of calls is the hook on one of the classes, seeing that class's flags in recs. */
  lemma {:induction false} AllEventsFrom(recs: Records, batches: Batches, h: Hook, uid: nat, xs: seq<ClassId>)
    requires forall i :: 0 <= i < |xs| ==> MetaIn(recs, batches, xs[i])
    ensures forall e :: e in AllEvents(recs, batches, h, uid, xs) ==> e.hook == h && e.cls in xs && e.info == recs[e.cls].info
    decreases |xs|
  {
    if xs != [] {
      var init := xs[..|xs| - 1];
      AllEventsFrom(recs, batches, h, uid, init);
      forall e | e in AllEvents(recs, batches, h, uid, xs)
        ensures e.hook == h && e.cls in xs && e.info == recs[e.cls].info
      {
        if e in AllEvents(recs, batches, h, uid, init) {
          assert e.cls in init;
        }
      }
    }
  }

  /** Calling one more class appends its events. */
  lemma AllEventsSnoc(recs: Records, batches: Batches, h: Hook, uid: nat, xs: seq<ClassId>, x: ClassId)
    requires forall i :: 0 <= i < |xs| ==> MetaIn(recs, batches, xs[i])
    requires MetaIn(recs, batches, x)
    ensures AllEvents(recs, batches, h, uid, xs + [x]) == AllEvents(recs, batches, h, uid, xs) + ClassEvents(recs, batches, h, uid, x)
  {
    assert (xs + [x])[..|xs|] == xs;
  }

  /** The events do not change when the classes keep their flags, metaclasses and metaclass chains. */
  lemma {:induction false} AllEventsSame(recs: Records, recs': Records, batches: Batches, h: Hook, uid: nat, xs: seq<ClassId>)
    requires forall i :: 0 <= i < |xs| ==>
               && MetaIn(recs, batches, xs[i]) && xs[i] in recs' && recs[xs[i]].meta in recs'
               && recs'[xs[i]].info == recs[xs[i]].info && recs'[xs[i]].meta == recs[xs[i]].meta
               && recs'[recs[xs[i]].meta].methodlist == recs[recs[xs[i]].meta].methodlist
    ensures forall i :: 0 <= i < |xs| ==> MetaIn(recs', batches, xs[i])
    ensures AllEvents(recs', batches, h, uid, xs) == AllEvents(recs, batches, h, uid, xs)
    decreases |xs|
  {
    if xs != [] {
      AllEventsSame(recs, recs', batches, h, uid, xs[..|xs| - 1]);
    }
  }

  /** One more method: MatchingImps grows by its implementation exactly when its uid matches. */
  lemma MatchingSnoc(ms: seq<Method>, m: Method, uid: nat)
    ensures MatchingImps(ms + [m], uid) == MatchingImps(ms, uid) + (if m.sel.uid == uid then [m.imp] else [])
    ensures m.sel.uid != uid ==> MatchingImps(ms + [m], uid) == MatchingImps(ms, uid)
  {
    assert (ms + [m])[..|ms|] == ms;
    assert MatchingImps(ms, uid) + [] == MatchingImps(ms, uid);
  }

  /** One more implementation: one more event. */
  lemma HookEventsSnoc(h: Hook, c: ClassId, info: Info, imps: seq<Imp>, x: Imp)
    ensures HookEvents(h, c, info, imps + [x]) == HookEvents(h, c, info, imps) + [Event(h, c, x, info)]
  {
    assert (imps + [x])[..|imps|] == imps;
  }

  /** The matches of two runs of methods, one after the other. */
  lemma {:induction false} MatchingAppend(a: seq<Method>, b: seq<Method>, uid: nat)
    ensures MatchingImps(a + b, uid) == MatchingImps(a, uid) + MatchingImps(b, uid)
    decreases |b|
  {
    if b == [] {
      assert a + b == a;
    } else {
      var init, m := b[..|b| - 1], b[|b| - 1];
      assert b == init + [m];
      Assoc(a, init, [m]);
      MatchingAppend(a, init, uid);
      MatchingSnoc(a + init, m, uid);
      MatchingSnoc(init, m, uid);
      Assoc(MatchingImps(a, uid), MatchingImps(init, uid), if m.sel.uid == uid then [m.imp] else []);
    }
  }

  /** The events of two runs of implementations, one after the other. */
  lemma HookEventsAppend(h: Hook, c: ClassId, info: Info, a: seq<Imp>, b: seq<Imp>)
    ensures HookEvents(h, c, info, a + b) == HookEvents(h, c, info, a) + HookEvents(h, c, info, b)
  {
    var l, r := HookEvents(h, c, info, a + b), HookEvents(h, c, info, a) + HookEvents(h, c, info, b);
    assert |l| == |r|;
    forall i | 0 <= i < |l|
      ensures l[i] == r[i]
    {
      if i < |a| {
        assert (a + b)[i] == a[i];
      } else {
        assert (a + b)[i] == b[i - |a|];
      }
    }
  }

  /** The inner loop of call_method: call the matching methods of one batch, in order. */
  method CallBatch(rt: Runtime, c: ClassId, h: Hook, info: Info, ms: seq<Method>, uid: nat)
    modifies rt`trace
    ensures rt.trace == old(rt.trace) + HookEvents(h, c, info, MatchingImps(ms, uid))
  {
    ghost var t0 := rt.trace;
    ghost var imps: seq<Imp> := [];
    var i: nat := 0;
    assert ms[..0] == [];
    while i < |ms|
      invariant i <= |ms|
      invariant imps == MatchingImps(ms[..i], uid)
      invariant rt.trace == t0 + HookEvents(h, c, info, imps)
    {
      CallBatchStep(t0, rt.trace, h, c, info, ms, uid, i, imps);
      if ms[i].sel.uid == uid {
        rt.trace := rt.trace + [Event(h, c, ms[i].imp, info)];
        imps := imps + [ms[i].imp];
      }
      i := i + 1;
    }
    assert i == |ms|;
    assert ms[..i] == ms;
  }

  /** One round of call_method's inner loop, on values: a matching method adds its call to the trace, any other adds nothing. */
  lemma CallBatchStep(t0: seq<Event>, t: seq<Event>, h: Hook, c: ClassId, info: Info, ms: seq<Method>, uid: nat, i: nat, imps: seq<Imp>)
    requires i < |ms| && imps == MatchingImps(ms[..i], uid) && t == t0 + HookEvents(h, c, info, imps)
    ensures ms[i].sel.uid == uid ==>
              imps + [ms[i].imp] == MatchingImps(ms[..i + 1], uid) &&
              t + [Event(h, c, ms[i].imp, info)] == t0 + HookEvents(h, c, info, imps + [ms[i].imp])
    ensures ms[i].sel.uid != uid ==> imps == MatchingImps(ms[..i + 1], uid)
  {
    MatchingSnoc(ms[..i], ms[i], uid);
    assert ms[..i + 1] == ms[..i] + [ms[i]];
    if ms[i].sel.uid == uid {
      HookEventsSnoc(h, c, info, imps, ms[i].imp);
      Assoc(t0, HookEvents(h, c, info, imps), [Event(h, c, ms[i].imp, info)]);
    }
  }

  /** call_method(c, hook): call every method of the metaclass chain whose uid is the hook's. */
  method CallMethod(rt: Runtime, c: ClassId, h: Hook)
    requires MetaIn(rt.recs, rt.batches, c)
    modifies rt`trace
    ensures rt.trace == old(rt.trace) + ClassEvents(rt.recs, rt.batches, h, HookUid(rt, h), c)
  {
    var uid := HookUid(rt, h);
    var batches, info := rt.batches, rt.recs[c].info;
    var chain := rt.recs[rt.recs[c].meta].methodlist;
    ghost var t0 := rt.trace;
    var mi: nat := 0;
    assert chain[..0] == [];
    while mi < |chain|
      invariant mi <= |chain|
      invariant rt.trace == t0 + HookEvents(h, c, info, MatchingImps(Flatten(batches, chain[..mi]), uid))
    {
      var ms := batches[chain[mi]];
      ghost var t := rt.trace;
      CallBatch(rt, c, h, info, ms, uid);
      CallMethodStep(t0, t, h, c, info, batches, chain, mi, uid);
      mi := mi + 1;
    }
    assert mi == |chain|;
    assert chain[..mi] == chain;
  }

  /** One round of call_method's outer loop, on values: the calls of batch chain[mi] extend those of the chain's prefix. */
  lemma CallMethodStep(t0: seq<Event>, t: seq<Event>, h: Hook, c: ClassId, info: Info, batches: Batches, chain: seq<BatchId>, mi: nat, uid: nat)
    requires ChainIn(batches, chain) && mi < |chain|
    requires t == t0 + HookEvents(h, c, info, MatchingImps(Flatten(batches, chain[..mi]), uid))
    ensures t + HookEvents(h, c, info, MatchingImps(batches[chain[mi]], uid)) ==
            t0 + HookEvents(h, c, info, MatchingImps(Flatten(batches, chain[..mi + 1]), uid))
  {
    var ms := batches[chain[mi]];
    var pre := MatchingImps(Flatten(batches, chain[..mi]), uid);
    FlattenStep(batches, chain, mi);
    MatchingAppend(Flatten(batches, chain[..mi]), ms, uid);
    HookEventsAppend(h, c, info, pre, MatchingImps(ms, uid));
    Assoc(t0, HookEvents(h, c, info, pre), HookEvents(h, c, info, MatchingImps(ms, uid)));
  }

  /** has_load: whether the metaclass chain holds a method with the uid of "load". */
  method HasLoad(rt: Runtime, c: ClassId) returns (b: bool)
    requires MetaIn(rt.recs, rt.batches, c)
    ensures b <==> Defines(MetaMethods(rt.recs, rt.batches, c), rt.loadUid)
  {
    var chain := rt.recs[rt.recs[c].meta].methodlist;
    var mi: nat := 0;
    assert chain[..0] == [];
    while mi < |chain|
      invariant mi <= |chain|
      invariant !Defines(Flatten(rt.batches, chain[..mi]), rt.loadUid)
    {
      var ms := rt.batches[chain[mi]];
      ghost var pre := Flatten(rt.batches, chain[..mi]);
      FlattenStep(rt.batches, chain, mi);
      var i := 0;
      while i < |ms|
        invariant i <= |ms|
        invariant forall j :: 0 <= j < i ==> ms[j].sel.uid != rt.loadUid
      {
        if ms[i].sel.uid == rt.loadUid {
          FlattenSplit(rt.batches, chain, mi + 1);
          assert (pre + ms)[|pre| + i] == ms[i];
          assert MetaMethods(rt.recs, rt.batches, c)[|pre| + i] == ms[i];
          return true;
        }
        i := i + 1;
      }
      assert !Defines(pre + ms, rt.loadUid) by {
        forall j | 0 <= j < |pre + ms|
          ensures (pre + ms)[j].sel.uid != rt.loadUid
        {
          if j >= |pre| {
            assert (pre + ms)[j] == ms[j - |pre|];
          } else {
            assert (pre + ms)[j] == pre[j];
          }
        }
      }
      mi := mi + 1;
    }
    assert mi == |chain|;
    assert chain[..mi] == chain;
    return false;
  }

  // ---------------------------------------------------------------------
  // call_load

  /** The classes of a sequence, as a set. */
  function Members(xs: seq<ClassId>): set<ClassId> {
    set x | x in xs
  }

  lemma Assoc<T>(a: seq<T>, b: seq<T>, c: seq<T>)
    ensures (a + b) + c == a + (b + c)
  {
  }

  /** Members of a sequence with one more element. */
  lemma MembersSnoc(xs: seq<ClassId>, x: ClassId)
    ensures Members(xs + [x]) == Members(xs) + {x}
  {
    assert forall y :: y in xs + [x] <==> y in xs || y == x;
  }

  /** The events of call_load(c) from records recs: the `load` methods of its walk, topmost class first. */
  ghost function LoadEvents(recs: Records, batches: Batches, rank: ClassId -> nat, uid: nat, c: ClassId): seq<Event>
    requires HooksOk(recs, batches, rank) && IsClass(recs, c)
  {
    AllEvents(recs, batches, Load, uid, Pending(recs, rank, c, LOADED))
  }

  /** The records after call_load(c) from records recs: its walk has LOADED. */
  ghost function LoadMarks(recs: Records, rank: ClassId -> nat, c: ClassId): Records
    requires SupersRanked(recs, rank) && IsClass(recs, c)
  {
    Marked(recs, Members(Pending(recs, rank, c, LOADED)), LOADED)
  }

  /** A class that has LOADED: call_load does nothing. */
  lemma LoadNothing(recs: Records, batches: Batches, rank: ClassId -> nat, uid: nat, c: ClassId)
    requires HooksOk(recs, batches, rank) && IsClass(recs, c) && Has(recs[c].info, LOADED)
    ensures LoadMarks(recs, rank, c) == recs && LoadEvents(recs, batches, rank, uid, c) == []
  {
  }

  /**
    * One step of call_load's walk, on values: when c lacks LOADED its walk
    * is its superclass's walk followed by c, the superclass's walk (r, es)
    * leaves c's events alone, and marking c after it marks the whole walk.
    */
  lemma CallLoadStep(recs: Records, batches: Batches, rank: ClassId -> nat, uid: nat, c: ClassId, r: Records, es: seq<Event>)
    requires HooksOk(recs, batches, rank) && IsClass(recs, c) && !Has(recs[c].info, LOADED)
    requires recs[c].superclass.Some? ==> r == LoadMarks(recs, rank, recs[c].superclass.value) && es == LoadEvents(recs, batches, rank, uid, recs[c].superclass.value)
    requires recs[c].superclass.None? ==> r == recs && es == []
    ensures IsClass(r, c) && MetaIn(r, batches, c) && MetaIn(recs, batches, c)
    ensures ClassEvents(r, batches, Load, uid, c) == ClassEvents(recs, batches, Load, uid, c)
    ensures LoadEvents(recs, batches, rank, uid, c) == es + ClassEvents(recs, batches, Load, uid, c)
    ensures LoadMarks(recs, rank, c) == r[c := r[c].(info := SetFlag(r[c].info, LOADED))]
  {
    var ps := if recs[c].superclass.Some? then Pending(recs, rank, recs[c].superclass.value, LOADED) else [];
    assert Pending(recs, rank, c, LOADED) == ps + [c];
    assert r == Marked(recs, Members(ps), LOADED);
    assert c !in Members(ps);
    var m := recs[c].meta;
    assert r[c] == recs[c] && r[m] == recs[m].(info := r[m].info);
    AllEventsSnoc(recs, batches, Load, uid, ps, c);
    MarkedPlus(recs, Members(ps), c, LOADED);
    MembersSnoc(ps, c);
  }

  /** The tail of call_load for one class: call its `load` methods, then set LOADED. */
  method LoadOne(rt: Runtime, c: ClassId)
    requires IsClass(rt.recs, c) && rt.Valid() && MetaIn(rt.recs, rt.batches, c)
    modifies rt`recs, rt`trace
    ensures rt.Valid()
    ensures rt.recs == old(rt.recs)[c := old(rt.recs[c]).(info := SetFlag(old(rt.recs[c].info), LOADED))]
    ensures rt.trace == old(rt.trace) + ClassEvents(old(rt.recs), rt.batches, Load, rt.loadUid, c)
    ensures rt.table == old(rt.table) && rt.dtableOf == old(rt.dtableOf) && rt.loadQueue == old(rt.loadQueue)
  {
    CallMethod(rt, c, Load);
    SetInfo(rt, c, LOADED);
  }

  /**
    * call_load(c): load the superclasses first, then call every `load` of
    * c, then set LOADED on c. Does nothing for a class that has LOADED.
    * The classes whose load runs are Pending(c, LOADED), topmost first,
    * each seeing its flags from before the walk (so without LOADED).
    */
  method CallLoad(rt: Runtime, c: ClassId)
    requires IsClass(rt.recs, c) && rt.Valid() && HooksOk(rt.recs, rt.batches, rt.rank)
    modifies rt`recs, rt`trace
    ensures rt.Valid()
    ensures rt.recs == LoadMarks(old(rt.recs), rt.rank, c)
    ensures rt.trace == old(rt.trace) + LoadEvents(old(rt.recs), rt.batches, rt.rank, rt.loadUid, c)
    ensures rt.table == old(rt.table) && rt.dtableOf == old(rt.dtableOf) && rt.loadQueue == old(rt.loadQueue)
    decreases rt.rank(c)
  {
    if Has(rt.recs[c].info, LOADED) {
      LoadNothing(rt.recs, rt.batches, rt.rank, rt.loadUid, c);
      return;
    }
    ghost var recs0, t0 := rt.recs, rt.trace;
    if rt.recs[c].superclass.Some? {
      CallLoad(rt, rt.recs[c].superclass.value);
    }
    ghost var es := rt.trace[|t0|..];
    assert rt.trace == t0 + es;
    CallLoadStep(recs0, rt.batches, rt.rank, rt.loadUid, c, rt.recs, es);
    ghost var own := ClassEvents(recs0, rt.batches, Load, rt.loadUid, c);
    LoadOne(rt, c);
    Assoc(t0, es, own);
  }

  /** call_load runs a class's load methods with LOADED still clear, superclasses first. */
  lemma LoadOrder(recs: Records, batches: Batches, rank: ClassId -> nat, uid: nat, c: ClassId)
    requires HooksOk(recs, batches, rank) && IsClass(recs, c)
    ensures forall e :: e in LoadEvents(recs, batches, rank, uid, c) ==> e.hook == Load && !Has(e.info, LOADED)
    ensures var p := Pending(recs, rank, c, LOADED);
            forall i {:trigger p[i]} :: 0 < i < |p| ==> recs[p[i]].superclass == Some(p[i - 1])
  {
    AllEventsFrom(recs, batches, Load, uid, Pending(recs, rank, c, LOADED));
    PendingOrdered(recs, rank, c, LOADED);
  }

  /** Marking flags keeps the hook walks well defined. */
  lemma MarkedKeepsHooks(recs: Records, batches: Batches, rank: ClassId -> nat, S: set<ClassId>, f: Info)
    requires HooksOk(recs, batches, rank) && IsFlag(f) && f != CLASS
    ensures HooksOk(Marked(recs, S, f), batches, rank)
  {
    var r := Marked(recs, S, f);
    forall x: ClassId | IsClass(r, x)
      ensures MetaIn(r, batches, x)
    {
      assert r[x] == recs[x].(info := r[x].info);
      assert r[recs[x].meta] == recs[recs[x].meta].(info := r[recs[x].meta].info);
    }
    PendingDoneRanked(recs, rank, S, f);
  }

  /** Marking flags keeps superclasses ranked. */
  lemma PendingDoneRanked(recs: Records, rank: ClassId -> nat, S: set<ClassId>, f: Info)
    requires SupersRanked(recs, rank) && IsFlag(f) && f != CLASS
    ensures SupersRanked(Marked(recs, S, f), rank)
  {
    var r := Marked(recs, S, f);
    forall x: ClassId | IsClass(r, x) && r[x].superclass.Some?
      ensures IsClass(r, r[x].superclass.value) && rank(r[x].superclass.value) < rank(x)
    {
      assert r[x] == recs[x].(info := r[x].info);
      assert r[recs[x].superclass.value] == recs[recs[x].superclass.value].(info := r[recs[x].superclass.value].info);
    }
  }

  /** After call_load(c), a second call_load(c) changes nothing and calls nothing. */
  lemma LoadAgain(recs: Records, batches: Batches, rank: ClassId -> nat, uid: nat, c: ClassId)
    requires HooksOk(recs, batches, rank) && IsClass(recs, c)
    ensures var r := LoadMarks(recs, rank, c);
            && HooksOk(r, batches, rank) && IsClass(r, c)
            && LoadMarks(r, rank, c) == r && LoadEvents(r, batches, rank, uid, c) == []
  {
    var r := LoadMarks(recs, rank, c);
    MarkedKeepsHooks(recs, batches, rank, Members(Pending(recs, rank, c, LOADED)), LOADED);
    PendingDone(recs, rank, c, LOADED);
    LoadNothing(r, batches, rank, uid, c);
  }

  /** The walk's own class has LOADED after call_load. */
  lemma LoadMarksLoaded(recs: Records, rank: ClassId -> nat, c: ClassId)
    requires SupersRanked(recs, rank) && IsClass(recs, c)
    ensures c in LoadMarks(recs, rank, c) && Has(LoadMarks(recs, rank, c)[c].info, LOADED)
  {
    var p := Pending(recs, rank, c, LOADED);
    if p != [] {
      assert c in Members(p);
    }
  }

  // ---------------------------------------------------------------------
  // objc_register_all_classes, first loop: register every class of the symtab

  /** The class table after registering defs[..n] in order: each registration binds the class's name. */
  function BindAll(names: Names, recs: Records, defs: seq<ClassId>, n: nat): Names
    requires n <= |defs| && forall j :: 0 <= j < |defs| ==> defs[j] in recs
  {
    if n == 0 then names
    else BindAll(names, recs, defs, n - 1)[recs[defs[n - 1]].name := defs[n - 1]]
  }

  /** The dtable pointers after registering defs[..n]: each class and its metaclass point at the empty table. */
  function PointAll(dtableOf: map<ClassId, DtId>, recs: Records, defs: seq<ClassId>, n: nat): map<ClassId, DtId>
    requires n <= |defs| && forall j :: 0 <= j < |defs| ==> defs[j] in recs
  {
    if n == 0 then dtableOf
    else PointAll(dtableOf, recs, defs, n - 1)[defs[n - 1] := EmptyDt][recs[defs[n - 1]].meta := EmptyDt]
  }

  /** The last class of defs[..n] registered under a name is the one the table binds it to. */
  lemma {:induction false} BindAllLatest(names: Names, recs: Records, defs: seq<ClassId>, n: nat)
    requires n <= |defs| && forall j :: 0 <= j < |defs| ==> defs[j] in recs
    ensures forall j :: 0 <= j < n && (forall k :: j < k < n ==> recs[defs[k]].name != recs[defs[j]].name) ==>
              recs[defs[j]].name in BindAll(names, recs, defs, n) && BindAll(names, recs, defs, n)[recs[defs[j]].name] == defs[j]
  {
    if n > 0 {
      BindAllLatest(names, recs, defs, n - 1);
      var prev := BindAll(names, recs, defs, n - 1);
      var nm := recs[defs[n - 1]].name;
      assert BindAll(names, recs, defs, n) == prev[nm := defs[n - 1]];
      forall j | 0 <= j < n - 1 && (forall k :: j < k < n ==> recs[defs[k]].name != recs[defs[j]].name)
        ensures recs[defs[j]].name in prev && prev[recs[defs[j]].name] == defs[j] && recs[defs[j]].name != nm
      {
        assert recs[defs[n - 1]].name != recs[defs[j]].name;
      }
    }
  }

  /** A name no class of defs[..n] carries keeps its old binding, or stays unbound. */
  lemma {:induction false} BindAllOthers(names: Names, recs: Records, defs: seq<ClassId>, n: nat)
    requires n <= |defs| && forall j :: 0 <= j < |defs| ==> defs[j] in recs
    ensures forall x :: (forall j :: 0 <= j < n ==> recs[defs[j]].name != x) ==>
              (x in BindAll(names, recs, defs, n) <==> x in names) &&
              (x in names ==> BindAll(names, recs, defs, n)[x] == names[x])
  {
    if n > 0 {
      BindAllOthers(names, recs, defs, n - 1);
      var prev := BindAll(names, recs, defs, n - 1);
      var nm := recs[defs[n - 1]].name;
      assert BindAll(names, recs, defs, n) == prev[nm := defs[n - 1]];
      forall x | (forall j :: 0 <= j < n ==> recs[defs[j]].name != x)
        ensures (x in prev <==> x in names) && (x in names ==> prev[x] == names[x]) && x != nm
      {
        assert recs[defs[n - 1]].name != x;
      }
    }
  }

  /** Every registered class is in the pointer map, bound to the empty table. */
  lemma {:induction false} PointAllHas(dtableOf: map<ClassId, DtId>, recs: Records, defs: seq<ClassId>, n: nat)
    requires n <= |defs| && forall j :: 0 <= j < |defs| ==> defs[j] in recs
    ensures dtableOf.Keys <= PointAll(dtableOf, recs, defs, n).Keys
    ensures forall j :: 0 <= j < n ==> defs[j] in PointAll(dtableOf, recs, defs, n) && PointAll(dtableOf, recs, defs, n)[defs[j]] == EmptyDt
  {
    if n > 0 {
      PointAllHas(dtableOf, recs, defs, n - 1);
    }
  }

  /** The first loop of objc_register_all_classes: register_class on each class of the symtab, in order. */
  method RegisterDefs(rt: Runtime, defs: seq<ClassId>)
    requires rt.Valid()
    requires forall j :: 0 <= j < |defs| ==>
               defs[j] in rt.recs && IsClass(rt.recs, defs[j]) && RankedBinding(rt.recs, rt.rank, rt.recs[defs[j]].name, defs[j])
    modifies rt`table, rt`dtableOf
    ensures rt.Valid()
    ensures rt.Names() == BindAll(old(rt.Names()), rt.recs, defs, |defs|)
    ensures rt.table.Some? <==> old(rt.table).Some? || defs != []
    ensures rt.dtableOf == PointAll(old(rt.dtableOf), rt.recs, defs, |defs|)
  {
    ghost var names0, dt0, had := rt.Names(), rt.dtableOf, rt.table.Some?;
    var i: nat := 0;
    while i < |defs|
      invariant i <= |defs|
      invariant rt.Valid()
      invariant rt.Names() == BindAll(names0, rt.recs, defs, i)
      invariant rt.table.Some? == (had || i > 0)
      invariant rt.dtableOf == PointAll(dt0, rt.recs, defs, i)
    {
      RegisterNext(rt, defs, i, names0, dt0, had);
      i := i + 1;
    }
  }

  /** One round of the first loop, stated against the loop's start. */
  method RegisterNext(rt: Runtime, defs: seq<ClassId>, i: nat, ghost names0: Names, ghost dt0: map<ClassId, DtId>, ghost had: bool)
    requires rt.Valid() && i < |defs|
    requires forall j :: 0 <= j < |defs| ==>
               defs[j] in rt.recs && IsClass(rt.recs, defs[j]) && RankedBinding(rt.recs, rt.rank, rt.recs[defs[j]].name, defs[j])
    requires rt.Names() == BindAll(names0, rt.recs, defs, i)
    requires rt.table.Some? == (had || i > 0)
    requires rt.dtableOf == PointAll(dt0, rt.recs, defs, i)
    modifies rt`table, rt`dtableOf
    ensures rt.Valid()
    ensures rt.Names() == BindAll(names0, rt.recs, defs, i + 1)
    ensures rt.table.Some? == (had || i + 1 > 0)
    ensures rt.dtableOf == PointAll(dt0, rt.recs, defs, i + 1)
  {
    rt.RegisterClass(defs[i]);
  }

  // ---------------------------------------------------------------------
  // objc_register_all_classes, second and third loops: load or queue

  /** The trace only grew, by load calls each made before its class had LOADED. */
  ghost predicate LoadsOnly(t: seq<Event>, t': seq<Event>) {
    t <= t' && forall k :: |t| <= k < |t'| ==> t'[k].hook == Load && !Has(t'[k].info, LOADED)
  }

  lemma LoadsOnlyTrans(a: seq<Event>, b: seq<Event>, c: seq<Event>)
    requires LoadsOnly(a, b) && LoadsOnly(b, c)
    ensures LoadsOnly(a, c)
  {
    forall k | |a| <= k < |c|
      ensures c[k].hook == Load && !Has(c[k].info, LOADED)
    {
      if k < |b| {
        assert c[k] == b[k];
      }
    }
  }

  /** Setting a flag on one record is marking that record. */
  lemma SetOneIsMarked(recs: Records, c: ClassId, f: Info)
    requires IsFlag(f) && c in recs
    ensures recs[c := recs[c].(info := SetFlag(recs[c].info, f))] == Marked(recs, {c}, f)
  {
    assert Marked(recs, {}, f) == recs;
    MarkedPlus(recs, {}, c, f);
    assert {} + {c} == {c};
  }

  /** setup_class(c) leaves c linked exactly when c is linkable. */
  lemma SetupLinksSelf(names: Names, recs: Records, reg: set<ClassId>, rank: ClassId -> nat, c: ClassId)
    requires Ok(names, recs, reg, rank) && IsClass(recs, c) && c in reg
    ensures Has(Setup(names, recs, reg, rank, c)[c].info, SETUP) <==> Linkable(names, recs, reg, rank, c)
  {
    SetupLinks(names, recs, reg, rank, c);
  }

  /** What call_load(d) after setup_class(d) does to records and trace, on values. */
  lemma LoadAfterSetup(names: Names, recs0: Records, recs1: Records, recs2: Records, reg: set<ClassId>, rank: ClassId -> nat,
                       batches: Batches, uid: nat, d: ClassId, t1: seq<Event>, t2: seq<Event>)
    requires Ok(names, recs0, reg, rank) && Ok(names, recs1, reg, rank) && Grows(names, reg, rank, recs0, recs1)
    requires HooksOk(recs1, batches, rank) && IsClass(recs1, d)
    requires recs2 == LoadMarks(recs1, rank, d) && t2 == t1 + LoadEvents(recs1, batches, rank, uid, d)
    ensures Grows(names, reg, rank, recs0, recs2)
    ensures d in recs2 && Has(recs2[d].info, LOADED)
    ensures LoadsOnly(t1, t2)
  {
    LoadOrder(recs1, batches, rank, uid, d);
    LoadMarksLoaded(recs1, rank, d);
    MarkedGrows(names, recs1, reg, rank, Members(Pending(recs1, rank, d, LOADED)), LOADED);
    GrowsTrans(names, reg, rank, recs0, recs1, recs2);
    var es := LoadEvents(recs1, batches, rank, uid, d);
    forall k | |t1| <= k < |t2|
      ensures t2[k].hook == Load && !Has(t2[k].info, LOADED)
    {
      assert t2[k] == es[k - |t1|];
    }
  }

  /** call_load's marks keep the records sound and growing, their chains in place, and leave the class LOADED. */
  lemma LoadMarksGrow(names: Names, recs: Records, reg: set<ClassId>, rank: ClassId -> nat, batches: Batches, c: ClassId)
    requires Ok(names, recs, reg, rank) && RecChainsIn(recs, batches) && HooksOk(recs, batches, rank) && IsClass(recs, c)
    ensures Ok(names, LoadMarks(recs, rank, c), reg, rank) && RecChainsIn(LoadMarks(recs, rank, c), batches)
    ensures Grows(names, reg, rank, recs, LoadMarks(recs, rank, c))
    ensures Has(LoadMarks(recs, rank, c)[c].info, LOADED)
  {
    var S := Members(Pending(recs, rank, c, LOADED));
    MarkedKeepsOk(names, recs, reg, rank, S, LOADED);
    MarkedGrows(names, recs, reg, rank, S, LOADED);
    GrowsChains(names, reg, rank, recs, LoadMarks(recs, rank, c), batches);
    LoadMarksLoaded(recs, rank, c);
  }

  /**
    * setup_class(d) and, when that links d, call_load(d), on values: the
    * records afterwards and the load events that ran, in order. Records
    * setup_class cannot start from are left alone.
    */
  ghost function SetupLoad(names: Names, recs: Records, reg: set<ClassId>, rank: ClassId -> nat, batches: Batches, uid: nat,
                           d: ClassId): (Records, seq<Event>)
  {
    if Ok(names, recs, reg, rank) && RecChainsIn(recs, batches) && IsClass(recs, d) && d in reg then
      var s := Setup(names, recs, reg, rank, d);
      SetupGrows(names, recs, reg, rank, d);
      GrowsChains(names, reg, rank, recs, s, batches);
      OkHooks(names, s, reg, rank, batches);
      assert IsClass(s, d) by { assert SameIdentity(recs[d], s[d]); }
      if Has(s[d].info, SETUP) then (LoadMarks(s, rank, d), LoadEvents(s, batches, rank, uid, d)) else (s, [])
    else (recs, [])
  }

  /**
    * setup_class and call_load keep the records sound, their chains in
    * place, and growing; a linkable class ends LOADED, and nothing at all
    * happens to one that cannot be linked.
    */
  lemma SetupLoadGrows(names: Names, recs: Records, reg: set<ClassId>, rank: ClassId -> nat, batches: Batches, uid: nat, d: ClassId)
    requires Ok(names, recs, reg, rank) && RecChainsIn(recs, batches) && IsClass(recs, d) && d in reg
    ensures Ok(names, SetupLoad(names, recs, reg, rank, batches, uid, d).0, reg, rank)
    ensures RecChainsIn(SetupLoad(names, recs, reg, rank, batches, uid, d).0, batches)
    ensures Grows(names, reg, rank, recs, SetupLoad(names, recs, reg, rank, batches, uid, d).0)
    ensures Linkable(names, recs, reg, rank, d) ==> Has(SetupLoad(names, recs, reg, rank, batches, uid, d).0[d].info, LOADED)
    ensures !Linkable(names, recs, reg, rank, d) ==> SetupLoad(names, recs, reg, rank, batches, uid, d) == (recs, [])
  {
    var s := Setup(names, recs, reg, rank, d);
    SetupGrows(names, recs, reg, rank, d);
    SetupLinksSelf(names, recs, reg, rank, d);
    GrowsChains(names, reg, rank, recs, s, batches);
    OkHooks(names, s, reg, rank, batches);
    assert IsClass(s, d) by { assert SameIdentity(recs[d], s[d]); }
    if Has(s[d].info, SETUP) {
      LoadMarksGrow(names, s, reg, rank, batches, d);
      GrowsTrans(names, reg, rank, recs, s, LoadMarks(s, rank, d));
    } else {
      SetupUnlinkable(names, recs, reg, rank, d);
    }
  }

  /**
    * setup_class(d) and, when that linked d, call_load(d): what both later
    * loops of objc_register_all_classes do with a class whose load must run.
    */
  method SetupAndLoad(rt: Runtime, d: ClassId) returns (linked: bool)
    requires rt.Valid() && IsClass(rt.recs, d) && d in rt.Registered()
    modifies rt`recs, rt`trace
    ensures rt.Valid()
    ensures Grows(old(rt.Names()), old(rt.Registered()), rt.rank, old(rt.recs), rt.recs)
    ensures linked <==> Linkable(old(rt.Names()), old(rt.recs), old(rt.Registered()), rt.rank, d)
    ensures linked ==> Has(rt.recs[d].info, LOADED)
    ensures LoadsOnly(old(rt.trace), rt.trace)
    ensures rt.table == old(rt.table) && rt.dtableOf == old(rt.dtableOf) && rt.loadQueue == old(rt.loadQueue)
    ensures rt.recs == SetupLoad(old(rt.Names()), old(rt.recs), old(rt.Registered()), rt.rank, rt.batches, rt.loadUid, d).0
    ensures rt.trace == old(rt.trace) + SetupLoad(old(rt.Names()), old(rt.recs), old(rt.Registered()), rt.rank, rt.batches, rt.loadUid, d).1
  {
    ghost var names, recs0, reg, rank, t0 := rt.Names(), rt.recs, rt.Registered(), rt.rank, rt.trace;
    ghost var batches, uid := rt.batches, rt.loadUid;
    assert RecChainsIn(recs0, batches);
    SetupClass(rt, d);
    SetupKeeps(names, recs0, reg, rank, batches, d);
    linked := Has(rt.recs[d].info, SETUP);
    if linked {
      CallLoad(rt, d);
    }
    SetupLoadAfter(names, recs0, reg, rank, batches, uid, d, t0, rt.recs, rt.trace);
  }

  /** setup_class keeps the class a class whose chains can be walked, and links it exactly when it is linkable. */
  lemma SetupKeeps(names: Names, recs: Records, reg: set<ClassId>, rank: ClassId -> nat, batches: Batches, d: ClassId)
    requires Ok(names, recs, reg, rank) && RecChainsIn(recs, batches) && IsClass(recs, d) && d in reg
    ensures HooksOk(Setup(names, recs, reg, rank, d), batches, rank) && IsClass(Setup(names, recs, reg, rank, d), d)
    ensures Has(Setup(names, recs, reg, rank, d)[d].info, SETUP) <==> Linkable(names, recs, reg, rank, d)
  {
    var s := Setup(names, recs, reg, rank, d);
    SetupGrows(names, recs, reg, rank, d);
    SetupLinksSelf(names, recs, reg, rank, d);
    GrowsChains(names, reg, rank, recs, s, batches);
    OkHooks(names, s, reg, rank, batches);
    assert IsClass(s, d) by { assert SameIdentity(recs[d], s[d]); }
  }

  /** setup_class's records, and what call_load makes of them exactly when setup_class linked the class. */
  lemma SetupLoadIs(names: Names, recs: Records, reg: set<ClassId>, rank: ClassId -> nat, batches: Batches, uid: nat, d: ClassId)
    requires Ok(names, recs, reg, rank) && RecChainsIn(recs, batches) && IsClass(recs, d) && d in reg
    ensures HooksOk(Setup(names, recs, reg, rank, d), batches, rank) && IsClass(Setup(names, recs, reg, rank, d), d)
    ensures SetupLoad(names, recs, reg, rank, batches, uid, d) ==
            if Has(Setup(names, recs, reg, rank, d)[d].info, SETUP)
            then (LoadMarks(Setup(names, recs, reg, rank, d), rank, d), LoadEvents(Setup(names, recs, reg, rank, d), batches, rank, uid, d))
            else (Setup(names, recs, reg, rank, d), [])
  {
    SetupKeeps(names, recs, reg, rank, batches, d);
  }

  /** The records and trace SetupAndLoad leaves are SetupLoad's, and they carry its promises. */
  lemma SetupLoadAfter(names: Names, recs: Records, reg: set<ClassId>, rank: ClassId -> nat, batches: Batches, uid: nat, d: ClassId,
                       t: seq<Event>, recs2: Records, t2: seq<Event>)
    requires Ok(names, recs, reg, rank) && RecChainsIn(recs, batches) && IsClass(recs, d) && d in reg
    requires HooksOk(Setup(names, recs, reg, rank, d), batches, rank) && IsClass(Setup(names, recs, reg, rank, d), d)
    requires Has(Setup(names, recs, reg, rank, d)[d].info, SETUP) ==>
               recs2 == LoadMarks(Setup(names, recs, reg, rank, d), rank, d) &&
               t2 == t + LoadEvents(Setup(names, recs, reg, rank, d), batches, rank, uid, d)
    requires !Has(Setup(names, recs, reg, rank, d)[d].info, SETUP) ==> recs2 == Setup(names, recs, reg, rank, d) && t2 == t
    ensures recs2 == SetupLoad(names, recs, reg, rank, batches, uid, d).0
    ensures t2 == t + SetupLoad(names, recs, reg, rank, batches, uid, d).1
    ensures Grows(names, reg, rank, recs, recs2) && LoadsOnly(t, t2)
    ensures Linkable(names, recs, reg, rank, d) ==> Has(recs2[d].info, LOADED)
  {
    SetupLoadIs(names, recs, reg, rank, batches, uid, d);
    assert t + [] == t;
    SetupLoadGrows(names, recs, reg, rank, batches, uid, d);
    SetupLoadLoads(names, recs, reg, rank, batches, uid, d, t);
  }

  /** A symtab class whose load must wait: it has one, and setup_class cannot link it. */
  ghost predicate Defers(names: Names, recs: Records, reg: set<ClassId>, rank: ClassId -> nat, batches: Batches, uid: nat, d: ClassId)
    requires Ok(names, recs, reg, rank) && IsClass(recs, d) && MetaIn(recs, batches, d)
  {
    Defines(MetaMethods(recs, batches, d), uid) && !Linkable(names, recs, reg, rank, d)
  }

  /** The symtab's classes: class records whose metaclass chains can be walked. */
  ghost predicate Symtab(recs: Records, batches: Batches, defs: seq<ClassId>) {
    forall j :: 0 <= j < |defs| ==> IsClass(recs, defs[j]) && MetaIn(recs, batches, defs[j])
  }

  /** The classes of defs[..n] the second loop appends to the load queue, in order. */
  ghost function Deferred(names: Names, recs: Records, reg: set<ClassId>, rank: ClassId -> nat, batches: Batches, uid: nat,
                          defs: seq<ClassId>, n: nat): (q: seq<ClassId>)
    requires Ok(names, recs, reg, rank) && Symtab(recs, batches, defs) && n <= |defs|
  {
    if n == 0 then []
    else
      Deferred(names, recs, reg, rank, batches, uid, defs, n - 1) +
      (if Defers(names, recs, reg, rank, batches, uid, defs[n - 1]) then [defs[n - 1]] else [])
  }

  /** The queued classes are exactly the deferring ones of defs[..n]. */
  lemma {:induction false} DeferredHas(names: Names, recs: Records, reg: set<ClassId>, rank: ClassId -> nat, batches: Batches, uid: nat,
                                      defs: seq<ClassId>, n: nat)
    requires Ok(names, recs, reg, rank) && Symtab(recs, batches, defs) && n <= |defs|
    ensures forall x :: x in Deferred(names, recs, reg, rank, batches, uid, defs, n) <==>
              exists j :: 0 <= j < n && defs[j] == x && Defers(names, recs, reg, rank, batches, uid, defs[j])
  {
    if n > 0 {
      DeferredHas(names, recs, reg, rank, batches, uid, defs, n - 1);
    }
  }

  /** Whether a class defers does not change as the records grow. */
  lemma DefersAgree(names: Names, recs: Records, recs': Records, reg: set<ClassId>, rank: ClassId -> nat, batches: Batches, uid: nat, d: ClassId)
    requires Ok(names, recs, reg, rank) && Ok(names, recs', reg, rank) && Grows(names, reg, rank, recs, recs')
    requires IsClass(recs, d) && MetaIn(recs, batches, d)
    ensures IsClass(recs', d) && MetaIn(recs', batches, d)
    ensures Defers(names, recs', reg, rank, batches, uid, d) == Defers(names, recs, reg, rank, batches, uid, d)
  {
    LinkableAgree(names, recs, recs', reg, rank, d);
    assert SameIdentity(recs[d], recs'[d]);
    assert SameIdentity(recs[recs[d].meta], recs'[recs[d].meta]);
  }

  /** A class whose meta has no load method: the second loop only marks it LOADED. */
  method MarkWithoutLoad(rt: Runtime, d: ClassId)
    requires rt.Valid() && IsClass(rt.recs, d)
    modifies rt`recs
    ensures rt.Valid()
    ensures Grows(old(rt.Names()), old(rt.Registered()), rt.rank, old(rt.recs), rt.recs)
    ensures d in rt.recs && Has(rt.recs[d].info, LOADED)
    ensures rt.recs == old(rt.recs)[d := old(rt.recs[d]).(info := SetFlag(old(rt.recs[d].info), LOADED))]
  {
    ghost var names, recs0, reg, rank := rt.Names(), rt.recs, rt.Registered(), rt.rank;
    SetInfo(rt, d, LOADED);
    SetOneIsMarked(recs0, d, LOADED);
    MarkedGrows(names, recs0, reg, rank, {d}, LOADED);
  }

  /** `load_queue[load_queue_cnt++] = cls`, the array grown by one. */
  method Enqueue(rt: Runtime, c: ClassId)
    requires rt.Valid()
    modifies rt`loadQueue
    ensures rt.Valid() && rt.loadQueue == old(rt.loadQueue) + [c]
  {
    rt.loadQueue := rt.loadQueue + [c];
  }

  /** A class with a load method: set up and loaded, or queued when it cannot be linked yet. */
  method LoadOrQueue(rt: Runtime, d: ClassId)
    requires rt.Valid() && IsClass(rt.recs, d) && d in rt.Registered()
    modifies rt`recs, rt`trace, rt`loadQueue
    ensures rt.Valid()
    ensures Grows(old(rt.Names()), old(rt.Registered()), rt.rank, old(rt.recs), rt.recs)
    ensures rt.loadQueue == old(rt.loadQueue) + if Linkable(old(rt.Names()), old(rt.recs), old(rt.Registered()), rt.rank, d) then [] else [d]
    ensures Linkable(old(rt.Names()), old(rt.recs), old(rt.Registered()), rt.rank, d) ==> Has(rt.recs[d].info, LOADED)
    ensures LoadsOnly(old(rt.trace), rt.trace)
    ensures rt.recs == SetupLoad(old(rt.Names()), old(rt.recs), old(rt.Registered()), rt.rank, rt.batches, rt.loadUid, d).0
    ensures rt.trace == old(rt.trace) + SetupLoad(old(rt.Names()), old(rt.recs), old(rt.Registered()), rt.rank, rt.batches, rt.loadUid, d).1
  {
    var linked := SetupAndLoad(rt, d);
    if !linked {
      Enqueue(rt, d);
    }
  }

  /**
    * One round of the second loop on values: a class without a load method
    * only gains LOADED, any other goes through SetupLoad. Records the round
    * cannot start from are left alone.
    */
  ghost function FirstStep(names: Names, recs: Records, reg: set<ClassId>, rank: ClassId -> nat, batches: Batches, uid: nat,
                           d: ClassId): (Records, seq<Event>)
  {
    if Ok(names, recs, reg, rank) && RecChainsIn(recs, batches) && IsClass(recs, d) && d in reg then
      OkHooks(names, recs, reg, rank, batches);
      if Defines(MetaMethods(recs, batches, d), uid) then SetupLoad(names, recs, reg, rank, batches, uid, d)
      else (recs[d := recs[d].(info := SetFlag(recs[d].info, LOADED))], [])
    else (recs, [])
  }

  /** A round the second loop can start: FirstStep is SetupLoad for a class with a load method, LOADED alone otherwise. */
  lemma FirstStepIs(names: Names, recs: Records, reg: set<ClassId>, rank: ClassId -> nat, batches: Batches, uid: nat, d: ClassId)
    requires Ok(names, recs, reg, rank) && RecChainsIn(recs, batches) && IsClass(recs, d) && d in reg && MetaIn(recs, batches, d)
    ensures FirstStep(names, recs, reg, rank, batches, uid, d) ==
              if Defines(MetaMethods(recs, batches, d), uid) then SetupLoad(names, recs, reg, rank, batches, uid, d)
              else (recs[d := recs[d].(info := SetFlag(recs[d].info, LOADED))], [])
  {
  }

  /** One round of the second loop keeps the records sound, their chains in place, and growing. */
  lemma FirstStepGrows(names: Names, recs: Records, reg: set<ClassId>, rank: ClassId -> nat, batches: Batches, uid: nat, d: ClassId)
    requires Ok(names, recs, reg, rank) && RecChainsIn(recs, batches) && IsClass(recs, d) && d in reg
    ensures Ok(names, FirstStep(names, recs, reg, rank, batches, uid, d).0, reg, rank)
    ensures RecChainsIn(FirstStep(names, recs, reg, rank, batches, uid, d).0, batches)
    ensures Grows(names, reg, rank, recs, FirstStep(names, recs, reg, rank, batches, uid, d).0)
  {
    OkHooks(names, recs, reg, rank, batches);
    if Defines(MetaMethods(recs, batches, d), uid) {
      SetupLoadGrows(names, recs, reg, rank, batches, uid, d);
    } else {
      var r := recs[d := recs[d].(info := SetFlag(recs[d].info, LOADED))];
      SetOneIsMarked(recs, d, LOADED);
      MarkedKeepsOk(names, recs, reg, rank, {d}, LOADED);
      MarkedGrows(names, recs, reg, rank, {d}, LOADED);
      GrowsChains(names, reg, rank, recs, r, batches);
    }
  }

  /** The second loop's first n rounds on values: the records after defs[..n], and the load events they ran, in order. */
  ghost function FirstRun(names: Names, recs: Records, reg: set<ClassId>, rank: ClassId -> nat, batches: Batches, uid: nat,
                          defs: seq<ClassId>, n: nat): (Records, seq<Event>)
    requires n <= |defs|
  {
    if n == 0 then (recs, [])
    else
      var p := FirstRun(names, recs, reg, rank, batches, uid, defs, n - 1);
      var s := FirstStep(names, p.0, reg, rank, batches, uid, defs[n - 1]);
      (s.0, p.1 + s.1)
  }

  /** Any number of rounds of the second loop keep the records sound, their chains in place, and growing. */
  lemma {:induction false} FirstRunGrows(names: Names, recs: Records, reg: set<ClassId>, rank: ClassId -> nat, batches: Batches,
                                         uid: nat, defs: seq<ClassId>, n: nat)
    requires Ok(names, recs, reg, rank) && RecChainsIn(recs, batches) && n <= |defs|
    requires forall j :: 0 <= j < |defs| ==> IsClass(recs, defs[j]) && defs[j] in reg
    ensures Ok(names, FirstRun(names, recs, reg, rank, batches, uid, defs, n).0, reg, rank)
    ensures RecChainsIn(FirstRun(names, recs, reg, rank, batches, uid, defs, n).0, batches)
    ensures Grows(names, reg, rank, recs, FirstRun(names, recs, reg, rank, batches, uid, defs, n).0)
  {
    if n == 0 {
      GrowsRefl(names, reg, rank, recs);
    } else {
      FirstRunGrows(names, recs, reg, rank, batches, uid, defs, n - 1);
      var p := FirstRun(names, recs, reg, rank, batches, uid, defs, n - 1).0;
      var d := defs[n - 1];
      assert IsClass(recs, d) && d in reg;
      FirstStepGrowsFrom(names, recs, p, reg, rank, batches, uid, d);
    }
  }

  /** A round of the second loop after records that grew from recs: they keep growing from recs. */
  lemma FirstStepGrowsFrom(names: Names, recs: Records, p: Records, reg: set<ClassId>, rank: ClassId -> nat, batches: Batches,
                           uid: nat, d: ClassId)
    requires Ok(names, recs, reg, rank) && Ok(names, p, reg, rank) && RecChainsIn(p, batches) && Grows(names, reg, rank, recs, p)
    requires IsClass(recs, d) && d in reg
    ensures Ok(names, FirstStep(names, p, reg, rank, batches, uid, d).0, reg, rank)
    ensures RecChainsIn(FirstStep(names, p, reg, rank, batches, uid, d).0, batches)
    ensures Grows(names, reg, rank, recs, FirstStep(names, p, reg, rank, batches, uid, d).0)
  {
    assert IsClass(p, d) by { assert SameIdentity(recs[d], p[d]); }
    FirstStepGrows(names, p, reg, rank, batches, uid, d);
    GrowsTrans(names, reg, rank, recs, p, FirstStep(names, p, reg, rank, batches, uid, d).0);
  }

  /** One more round of the second loop extends FirstRun by FirstStep. */
  lemma FirstRunNext(names: Names, recs0: Records, reg: set<ClassId>, rank: ClassId -> nat, batches: Batches, uid: nat,
                     defs: seq<ClassId>, i: nat, t0: seq<Event>, recs1: Records, t1: seq<Event>, recs2: Records, t2: seq<Event>)
    requires i < |defs|
    requires recs1 == FirstRun(names, recs0, reg, rank, batches, uid, defs, i).0
    requires t1 == t0 + FirstRun(names, recs0, reg, rank, batches, uid, defs, i).1
    requires recs2 == FirstStep(names, recs1, reg, rank, batches, uid, defs[i]).0
    requires t2 == t1 + FirstStep(names, recs1, reg, rank, batches, uid, defs[i]).1
    ensures recs2 == FirstRun(names, recs0, reg, rank, batches, uid, defs, i + 1).0
    ensures t2 == t0 + FirstRun(names, recs0, reg, rank, batches, uid, defs, i + 1).1
  {
    var p := FirstRun(names, recs0, reg, rank, batches, uid, defs, i);
    Assoc(t0, p.1, FirstStep(names, recs1, reg, rank, batches, uid, defs[i]).1);
  }

  /** The load events SetupLoad runs each see their class without LOADED. */
  lemma SetupLoadLoads(names: Names, recs: Records, reg: set<ClassId>, rank: ClassId -> nat, batches: Batches, uid: nat,
                       d: ClassId, t: seq<Event>)
    requires Ok(names, recs, reg, rank) && RecChainsIn(recs, batches) && IsClass(recs, d) && d in reg
    ensures LoadsOnly(t, t + SetupLoad(names, recs, reg, rank, batches, uid, d).1)
  {
    var s := Setup(names, recs, reg, rank, d);
    SetupGrows(names, recs, reg, rank, d);
    GrowsChains(names, reg, rank, recs, s, batches);
    OkHooks(names, s, reg, rank, batches);
    assert IsClass(s, d) by { assert SameIdentity(recs[d], s[d]); }
    var es := SetupLoad(names, recs, reg, rank, batches, uid, d).1;
    if Has(s[d].info, SETUP) {
      LoadOrder(s, batches, rank, uid, d);
      assert es == LoadEvents(s, batches, rank, uid, d);
    }
    forall k | |t| <= k < |t + es|
      ensures (t + es)[k].hook == Load && !Has((t + es)[k].info, LOADED)
    {
      assert (t + es)[k] == es[k - |t|];
    }
  }

  /**
    * What one round of the second loop promises, on values: the records
    * grow, a class that does not defer ends LOADED, and only load calls
    * made before their class had LOADED join the trace.
    */
  lemma FirstStepLoads(names: Names, recs: Records, reg: set<ClassId>, rank: ClassId -> nat, batches: Batches, uid: nat,
                       d: ClassId, t: seq<Event>)
    requires Ok(names, recs, reg, rank) && RecChainsIn(recs, batches) && IsClass(recs, d) && d in reg && MetaIn(recs, batches, d)
    ensures Grows(names, reg, rank, recs, FirstStep(names, recs, reg, rank, batches, uid, d).0)
    ensures !Defers(names, recs, reg, rank, batches, uid, d) ==> Has(FirstStep(names, recs, reg, rank, batches, uid, d).0[d].info, LOADED)
    ensures LoadsOnly(t, t + FirstStep(names, recs, reg, rank, batches, uid, d).1)
  {
    FirstStepIs(names, recs, reg, rank, batches, uid, d);
    FirstStepGrows(names, recs, reg, rank, batches, uid, d);
    if Defines(MetaMethods(recs, batches, d), uid) {
      SetupLoadGrows(names, recs, reg, rank, batches, uid, d);
      SetupLoadLoads(names, recs, reg, rank, batches, uid, d, t);
    } else {
      assert t + [] == t;
    }
  }

  /** `if (has_load(cls)) ... else cls->info |= OBJC_CLASS_INFO_LOADED`: the body of the second loop. */
  method LoadOrMark(rt: Runtime, d: ClassId)
    requires rt.Valid() && IsClass(rt.recs, d) && d in rt.Registered() && MetaIn(rt.recs, rt.batches, d)
    modifies rt`recs, rt`trace, rt`loadQueue
    ensures rt.Valid()
    ensures rt.recs == FirstStep(old(rt.Names()), old(rt.recs), old(rt.Registered()), rt.rank, rt.batches, rt.loadUid, d).0
    ensures rt.trace == old(rt.trace) + FirstStep(old(rt.Names()), old(rt.recs), old(rt.Registered()), rt.rank, rt.batches, rt.loadUid, d).1
    ensures rt.loadQueue == old(rt.loadQueue) +
              if Defers(old(rt.Names()), old(rt.recs), old(rt.Registered()), rt.rank, rt.batches, rt.loadUid, d) then [d] else []
    ensures rt.table == old(rt.table) && rt.dtableOf == old(rt.dtableOf)
  {
    ghost var names, recs0, reg, rank := rt.Names(), rt.recs, rt.Registered(), rt.rank;
    ghost var batches, uid, t0, q0 := rt.batches, rt.loadUid, rt.trace, rt.loadQueue;
    assert RecChainsIn(recs0, batches);
    var b := HasLoad(rt, d);
    if b {
      LoadOrQueue(rt, d);
    } else {
      MarkWithoutLoad(rt, d);
    }
    FirstStepAfter(names, recs0, reg, rank, batches, uid, d, b, t0, q0, rt.recs, rt.trace, rt.loadQueue);
  }

  /** The records, trace and queue either branch of the second loop's body leaves are FirstStep's. */
  lemma FirstStepAfter(names: Names, recs: Records, reg: set<ClassId>, rank: ClassId -> nat, batches: Batches, uid: nat, d: ClassId,
                       b: bool, t: seq<Event>, q: seq<ClassId>, recs2: Records, t2: seq<Event>, q2: seq<ClassId>)
    requires Ok(names, recs, reg, rank) && RecChainsIn(recs, batches) && IsClass(recs, d) && d in reg && MetaIn(recs, batches, d)
    requires b <==> Defines(MetaMethods(recs, batches, d), uid)
    requires b ==> recs2 == SetupLoad(names, recs, reg, rank, batches, uid, d).0 &&
                   t2 == t + SetupLoad(names, recs, reg, rank, batches, uid, d).1 &&
                   q2 == q + if Linkable(names, recs, reg, rank, d) then [] else [d]
    requires !b ==> recs2 == recs[d := recs[d].(info := SetFlag(recs[d].info, LOADED))] && t2 == t && q2 == q
    ensures recs2 == FirstStep(names, recs, reg, rank, batches, uid, d).0
    ensures t2 == t + FirstStep(names, recs, reg, rank, batches, uid, d).1
    ensures q2 == q + if Defers(names, recs, reg, rank, batches, uid, d) then [d] else []
  {
    FirstStepIs(names, recs, reg, rank, batches, uid, d);
    assert t + [] == t && q + [] == q;
  }

  /** One round of the second loop: a class without load gets LOADED; one with load is loaded, or queued when it cannot be linked. */
  method FirstPassStep(rt: Runtime, d: ClassId)
    requires rt.Valid() && IsClass(rt.recs, d) && d in rt.Registered() && MetaIn(rt.recs, rt.batches, d)
    modifies rt`recs, rt`trace, rt`loadQueue
    ensures rt.Valid()
    ensures Grows(old(rt.Names()), old(rt.Registered()), rt.rank, old(rt.recs), rt.recs)
    ensures rt.loadQueue == old(rt.loadQueue) +
              if Defers(old(rt.Names()), old(rt.recs), old(rt.Registered()), rt.rank, rt.batches, rt.loadUid, d) then [d] else []
    ensures !Defers(old(rt.Names()), old(rt.recs), old(rt.Registered()), rt.rank, rt.batches, rt.loadUid, d) ==> Has(rt.recs[d].info, LOADED)
    ensures LoadsOnly(old(rt.trace), rt.trace)
    ensures rt.recs == FirstStep(old(rt.Names()), old(rt.recs), old(rt.Registered()), rt.rank, rt.batches, rt.loadUid, d).0
    ensures rt.trace == old(rt.trace) + FirstStep(old(rt.Names()), old(rt.recs), old(rt.Registered()), rt.rank, rt.batches, rt.loadUid, d).1
    ensures rt.table == old(rt.table) && rt.dtableOf == old(rt.dtableOf)
  {
    ghost var names, recs0, reg, t0 := rt.Names(), rt.recs, rt.Registered(), rt.trace;
    LoadOrMark(rt, d);
    FirstStepLoads(names, recs0, reg, rt.rank, rt.batches, rt.loadUid, d, t0);
  }

  /** The classes defs[..i] are LOADED in recs, except those that defer. */
  ghost predicate LoadedBelow(names: Names, recs0: Records, reg: set<ClassId>, rank: ClassId -> nat, batches: Batches, uid: nat,
                              defs: seq<ClassId>, i: nat, recs: Records)
    requires Ok(names, recs0, reg, rank) && i <= |defs|
    requires Symtab(recs0, batches, defs)
  {
    forall j :: 0 <= j < i ==>
      defs[j] in recs && (Defers(names, recs0, reg, rank, batches, uid, defs[j]) || Has(recs[defs[j]].info, LOADED))
  }

  /** LOADED stays set as the records grow, and one more class joins. */
  lemma LoadedBelowStep(names: Names, recs0: Records, recs1: Records, recs2: Records, reg: set<ClassId>, rank: ClassId -> nat,
                        batches: Batches, uid: nat, defs: seq<ClassId>, i: nat)
    requires Ok(names, recs0, reg, rank) && Ok(names, recs1, reg, rank) && i < |defs|
    requires Symtab(recs0, batches, defs)
    requires LoadedBelow(names, recs0, reg, rank, batches, uid, defs, i, recs1) && Grows(names, reg, rank, recs1, recs2)
    requires defs[i] in recs2 && (Defers(names, recs0, reg, rank, batches, uid, defs[i]) || Has(recs2[defs[i]].info, LOADED))
    ensures LoadedBelow(names, recs0, reg, rank, batches, uid, defs, i + 1, recs2)
  {
    forall j | 0 <= j < i
      ensures defs[j] in recs2 && (Defers(names, recs0, reg, rank, batches, uid, defs[j]) || Has(recs2[defs[j]].info, LOADED))
    {
      assert defs[j] in recs1;
      assert Keeps(recs1[defs[j]].info, recs2[defs[j]].info);
    }
  }

  /** Where the second loop's first i rounds leave the records: sound, grown, and ready for round i. */
  lemma FirstRunAt(names: Names, recs0: Records, reg: set<ClassId>, rank: ClassId -> nat, batches: Batches, uid: nat,
                   defs: seq<ClassId>, i: nat)
    requires Ok(names, recs0, reg, rank) && RecChainsIn(recs0, batches) && Symtab(recs0, batches, defs) && i < |defs|
    requires forall j :: 0 <= j < |defs| ==> defs[j] in reg
    ensures Ok(names, FirstRun(names, recs0, reg, rank, batches, uid, defs, i).0, reg, rank)
    ensures Grows(names, reg, rank, recs0, FirstRun(names, recs0, reg, rank, batches, uid, defs, i).0)
    ensures IsClass(FirstRun(names, recs0, reg, rank, batches, uid, defs, i).0, defs[i])
    ensures MetaIn(FirstRun(names, recs0, reg, rank, batches, uid, defs, i).0, batches, defs[i]) && defs[i] in reg
  {
    FirstRunGrows(names, recs0, reg, rank, batches, uid, defs, i);
    var r := FirstRun(names, recs0, reg, rank, batches, uid, defs, i).0;
    var d := defs[i];
    assert SameIdentity(recs0[d], r[d]);
    assert SameIdentity(recs0[recs0[d].meta], r[recs0[d].meta]);
  }

  /** The second loop adds only load calls, each made before its class had LOADED. */
  lemma {:induction false} FirstRunLoads(names: Names, recs: Records, reg: set<ClassId>, rank: ClassId -> nat, batches: Batches,
                                         uid: nat, defs: seq<ClassId>, n: nat, t: seq<Event>)
    requires Ok(names, recs, reg, rank) && RecChainsIn(recs, batches) && Symtab(recs, batches, defs) && n <= |defs|
    requires forall j :: 0 <= j < |defs| ==> defs[j] in reg
    ensures LoadsOnly(t, t + FirstRun(names, recs, reg, rank, batches, uid, defs, n).1)
    decreases n, 1
  {
    if n == 0 {
      assert t + [] == t;
    } else {
      FirstRunLoadsAt(names, recs, reg, rank, batches, uid, defs, n, t);
    }
  }

  /** FirstRunLoads for n > 0 rounds: the first n - 1, then the last. */
  lemma {:induction false} FirstRunLoadsAt(names: Names, recs: Records, reg: set<ClassId>, rank: ClassId -> nat, batches: Batches,
                                           uid: nat, defs: seq<ClassId>, n: nat, t: seq<Event>)
    requires Ok(names, recs, reg, rank) && RecChainsIn(recs, batches) && Symtab(recs, batches, defs) && 0 < n <= |defs|
    requires forall j :: 0 <= j < |defs| ==> defs[j] in reg
    ensures LoadsOnly(t, t + FirstRun(names, recs, reg, rank, batches, uid, defs, n).1)
    decreases n, 0
  {
    var i := n - 1;
    var p := FirstRun(names, recs, reg, rank, batches, uid, defs, i);
    var d := defs[i];
    FirstRunLoads(names, recs, reg, rank, batches, uid, defs, i, t);
    FirstRunReady(names, recs, reg, rank, batches, uid, defs, i);
    FirstStepLoadsAfter(names, p.0, reg, rank, batches, uid, d, t, t + p.1);
    FirstRunNextEvents(names, recs, reg, rank, batches, uid, defs, n, t);
  }

  /** Round i of the second loop starts from records it can work on. */
  ghost predicate StepReady(names: Names, recs: Records, reg: set<ClassId>, rank: ClassId -> nat, batches: Batches, d: ClassId) {
    Ok(names, recs, reg, rank) && RecChainsIn(recs, batches) && IsClass(recs, d) && d in reg && MetaIn(recs, batches, d)
  }

  /** The records after i rounds of the second loop are ready for round i. */
  lemma FirstRunReady(names: Names, recs: Records, reg: set<ClassId>, rank: ClassId -> nat, batches: Batches,
                      uid: nat, defs: seq<ClassId>, i: nat)
    requires Ok(names, recs, reg, rank) && RecChainsIn(recs, batches) && Symtab(recs, batches, defs) && i < |defs|
    requires forall j :: 0 <= j < |defs| ==> defs[j] in reg
    ensures StepReady(names, FirstRun(names, recs, reg, rank, batches, uid, defs, i).0, reg, rank, batches, defs[i])
  {
    FirstRunAt(names, recs, reg, rank, batches, uid, defs, i);
    FirstRunGrows(names, recs, reg, rank, batches, uid, defs, i);
  }

  /** A round of the second loop after a trace that so far holds only early load calls keeps it so. */
  lemma FirstStepLoadsAfter(names: Names, p: Records, reg: set<ClassId>, rank: ClassId -> nat, batches: Batches, uid: nat,
                            d: ClassId, t: seq<Event>, tp: seq<Event>)
    requires StepReady(names, p, reg, rank, batches, d) && LoadsOnly(t, tp)
    ensures LoadsOnly(t, tp + FirstStep(names, p, reg, rank, batches, uid, d).1)
  {
    FirstStepLoads(names, p, reg, rank, batches, uid, d, tp);
    LoadsOnlyTrans(t, tp, tp + FirstStep(names, p, reg, rank, batches, uid, d).1);
  }

  /** The events of n > 0 rounds are those of the first n - 1, then the last round's. */
  lemma FirstRunNextEvents(names: Names, recs: Records, reg: set<ClassId>, rank: ClassId -> nat, batches: Batches,
                           uid: nat, defs: seq<ClassId>, n: nat, t: seq<Event>)
    requires 0 < n <= |defs|
    ensures t + FirstRun(names, recs, reg, rank, batches, uid, defs, n).1 ==
            t + FirstRun(names, recs, reg, rank, batches, uid, defs, n - 1).1 +
            FirstStep(names, FirstRun(names, recs, reg, rank, batches, uid, defs, n - 1).0, reg, rank, batches, uid, defs[n - 1]).1
  {
    var p := FirstRun(names, recs, reg, rank, batches, uid, defs, n - 1);
    Assoc(t, p.1, FirstStep(names, p.0, reg, rank, batches, uid, defs[n - 1]).1);
  }

  /** What one round of the second loop adds to the loop's facts so far. */
  lemma FirstPassRound(names: Names, reg: set<ClassId>, rank: ClassId -> nat, batches: Batches, uid: nat, defs: seq<ClassId>, i: nat,
                       recs0: Records, recs1: Records, recs2: Records, q0: seq<ClassId>, q1: seq<ClassId>, q2: seq<ClassId>,
                       t0: seq<Event>, t1: seq<Event>, t2: seq<Event>)
    requires Ok(names, recs0, reg, rank) && RecChainsIn(recs0, batches) && Symtab(recs0, batches, defs) && i < |defs|
    requires forall j :: 0 <= j < |defs| ==> defs[j] in reg
    requires recs1 == FirstRun(names, recs0, reg, rank, batches, uid, defs, i).0
    requires t1 == t0 + FirstRun(names, recs0, reg, rank, batches, uid, defs, i).1
    requires Ok(names, recs1, reg, rank) && Grows(names, reg, rank, recs0, recs1)
    requires IsClass(recs1, defs[i]) && MetaIn(recs1, batches, defs[i])
    requires q1 == q0 + Deferred(names, recs0, reg, rank, batches, uid, defs, i)
    requires LoadedBelow(names, recs0, reg, rank, batches, uid, defs, i, recs1)
    requires LoadsOnly(t0, t1) && LoadsOnly(t1, t2) && Grows(names, reg, rank, recs1, recs2)
    requires q2 == q1 + if Defers(names, recs1, reg, rank, batches, uid, defs[i]) then [defs[i]] else []
    requires !Defers(names, recs1, reg, rank, batches, uid, defs[i]) ==> Has(recs2[defs[i]].info, LOADED)
    requires recs2 == FirstStep(names, recs1, reg, rank, batches, uid, defs[i]).0
    requires t2 == t1 + FirstStep(names, recs1, reg, rank, batches, uid, defs[i]).1
    ensures recs2 == FirstRun(names, recs0, reg, rank, batches, uid, defs, i + 1).0
    ensures t2 == t0 + FirstRun(names, recs0, reg, rank, batches, uid, defs, i + 1).1
    ensures q2 == q0 + Deferred(names, recs0, reg, rank, batches, uid, defs, i + 1)
    ensures LoadedBelow(names, recs0, reg, rank, batches, uid, defs, i + 1, recs2)
    ensures LoadsOnly(t0, t2)
  {
    var d := defs[i];
    DefersAgree(names, recs0, recs1, reg, rank, batches, uid, d);
    LoadsOnlyTrans(t0, t1, t2);
    LoadedBelowStep(names, recs0, recs1, recs2, reg, rank, batches, uid, defs, i);
    Assoc(q0, Deferred(names, recs0, reg, rank, batches, uid, defs, i), if Defers(names, recs0, reg, rank, batches, uid, d) then [d] else []);
    FirstRunNext(names, recs0, reg, rank, batches, uid, defs, i, t0, recs1, t1, recs2, t2);
  }

  /** One round of the second loop, stated against the loop's start and tracked against FirstRun. */
  method FirstPassAt(rt: Runtime, defs: seq<ClassId>, i: nat, ghost names: Names, ghost reg: set<ClassId>, ghost recs0: Records,
                     ghost q0: seq<ClassId>, ghost t0: seq<Event>, ghost batches: Batches, ghost uid: nat)
    requires rt.Valid() && rt.Names() == names && rt.Registered() == reg && i < |defs|
    requires rt.batches == batches && rt.loadUid == uid
    requires Ok(names, recs0, reg, rt.rank) && RecChainsIn(recs0, batches) && Symtab(recs0, batches, defs)
    requires forall j :: 0 <= j < |defs| ==> defs[j] in reg
    requires rt.recs == FirstRun(names, recs0, reg, rt.rank, batches, uid, defs, i).0
    requires rt.trace == t0 + FirstRun(names, recs0, reg, rt.rank, batches, uid, defs, i).1
    requires rt.loadQueue == q0 + Deferred(names, recs0, reg, rt.rank, batches, uid, defs, i)
    requires LoadedBelow(names, recs0, reg, rt.rank, batches, uid, defs, i, rt.recs)
    requires LoadsOnly(t0, rt.trace)
    modifies rt`recs, rt`trace, rt`loadQueue
    ensures rt.Valid() && rt.Names() == names && rt.Registered() == reg
    ensures rt.recs == FirstRun(names, recs0, reg, rt.rank, batches, uid, defs, i + 1).0
    ensures rt.trace == t0 + FirstRun(names, recs0, reg, rt.rank, batches, uid, defs, i + 1).1
    ensures rt.loadQueue == q0 + Deferred(names, recs0, reg, rt.rank, batches, uid, defs, i + 1)
    ensures LoadedBelow(names, recs0, reg, rt.rank, batches, uid, defs, i + 1, rt.recs)
    ensures LoadsOnly(t0, rt.trace)
  {
    var d := defs[i];
    ghost var recs1, t1, q1 := rt.recs, rt.trace, rt.loadQueue;
    FirstRunAt(names, recs0, reg, rt.rank, batches, uid, defs, i);
    FirstPassStep(rt, d);
    FirstPassRound(names, reg, rt.rank, batches, uid, defs, i, recs0, recs1, rt.recs, q0, q1, rt.loadQueue, t0, t1, rt.trace);
  }

  /**
    * The second loop of objc_register_all_classes: every class of defs
    * ends up LOADED unless it defers, and the deferring ones join the load
    * queue in symtab order.
    */
  method FirstPass(rt: Runtime, defs: seq<ClassId>)
    requires rt.Valid() && Symtab(rt.recs, rt.batches, defs)
    requires forall j :: 0 <= j < |defs| ==> defs[j] in rt.Registered()
    modifies rt`recs, rt`trace, rt`loadQueue
    ensures rt.Valid()
    ensures Grows(old(rt.Names()), old(rt.Registered()), rt.rank, old(rt.recs), rt.recs)
    ensures rt.loadQueue == old(rt.loadQueue) + Deferred(old(rt.Names()), old(rt.recs), old(rt.Registered()), rt.rank, rt.batches, rt.loadUid, defs, |defs|)
    ensures LoadedBelow(old(rt.Names()), old(rt.recs), old(rt.Registered()), rt.rank, rt.batches, rt.loadUid, defs, |defs|, rt.recs)
    ensures LoadsOnly(old(rt.trace), rt.trace)
    ensures rt.recs == FirstRun(old(rt.Names()), old(rt.recs), old(rt.Registered()), rt.rank, rt.batches, rt.loadUid, defs, |defs|).0
    ensures rt.trace == old(rt.trace) + FirstRun(old(rt.Names()), old(rt.recs), old(rt.Registered()), rt.rank, rt.batches, rt.loadUid, defs, |defs|).1
  {
    ghost var names, recs0, reg, rank, q0, t0 := rt.Names(), rt.recs, rt.Registered(), rt.rank, rt.loadQueue, rt.trace;
    ghost var batches, uid := rt.batches, rt.loadUid;
    assert RecChainsIn(recs0, batches);
    assert t0 + [] == t0;
    var i: nat := 0;
    while i < |defs|
      invariant i <= |defs|
      invariant rt.Valid() && rt.Names() == names && rt.Registered() == reg
      invariant rt.recs == FirstRun(names, recs0, reg, rank, batches, uid, defs, i).0
      invariant rt.trace == t0 + FirstRun(names, recs0, reg, rank, batches, uid, defs, i).1
      invariant rt.loadQueue == q0 + Deferred(names, recs0, reg, rank, batches, uid, defs, i)
      invariant LoadedBelow(names, recs0, reg, rank, batches, uid, defs, i, rt.recs)
      invariant LoadsOnly(t0, rt.trace)
    {
      FirstPassAt(rt, defs, i, names, reg, recs0, q0, t0, batches, uid);
      i := i + 1;
    }
    assert i == |defs|;
    FirstRunGrows(names, recs0, reg, rank, batches, uid, defs, |defs|);
  }

  // ---------------------------------------------------------------------
  // The third loop: retrying the load queue

  /** The queue with entry i taken out: the last entry moves into slot i (`load_queue[i] = load_queue[--load_queue_cnt]`). */
  function Unqueue(q: seq<ClassId>, i: nat): (r: seq<ClassId>)
    requires i < |q|
    ensures |r| == |q| - 1
    ensures multiset(r) + multiset{q[i]} == multiset(q)
  {
    var n := |q| - 1;
    if i == n then
      assert q == q[..n] + [q[n]];
      q[..n]
    else
      assert q == q[..i] + [q[i]] + q[i + 1..n] + [q[n]];
      assert q[..n][i := q[n]] == q[..i] + [q[n]] + q[i + 1..n];
      q[..n][i := q[n]]
  }

  /** Taking entry i out keeps every other entry. */
  lemma UnqueueHas(q: seq<ClassId>, i: nat, x: ClassId)
    requires i < |q|
    ensures x in Unqueue(q, i) ==> x in q
    ensures x in q && x != q[i] ==> x in Unqueue(q, i)
  {
    var r := Unqueue(q, i);
    assert x in multiset(q) <==> x in multiset(r) + multiset{q[i]};
  }

  /**
    * The third loop as written: an entry in ok (one setup_class links) is
    * loaded and taken out, and i moves on past the entry that took its
    * place; any other entry is passed over.
    */
  function Retry(q: seq<ClassId>, ok: set<ClassId>, i: nat): (r: seq<ClassId>)
    decreases |q| - i
  {
    if i >= |q| then q
    else if q[i] in ok then Retry(Unqueue(q, i), ok, i + 1)
    else Retry(q, ok, i + 1)
  }

  /** As written, an entry that cannot be linked stays queued, and nothing joins the queue. */
  lemma {:induction false} RetryKeeps(q: seq<ClassId>, ok: set<ClassId>, i: nat, x: ClassId)
    ensures x in Retry(q, ok, i) ==> x in q
    ensures x in q && x !in ok ==> x in Retry(q, ok, i)
    decreases |q| - i
  {
    if i < |q| {
      if q[i] in ok {
        UnqueueHas(q, i, x);
        RetryKeeps(Unqueue(q, i), ok, i + 1, x);
      } else {
        RetryKeeps(q, ok, i + 1, x);
      }
    }
  }

  /**
    * As written, two queued classes that both link now leave the second
    * queued: it moves into slot 0 and the loop goes on at slot 1.
    */
  lemma RetrySkips()
    ensures 2 in {1, 2} && Retry([1, 2], {1, 2}, 0) == [2]
  {
    assert Unqueue([1, 2], 0) == [2];
    assert Retry([2], {1, 2}, 1) == [2];
  }

  /** The third loop as evidently intended: the entry that moves into slot i is tried in turn. */
  function RetryFixed(q: seq<ClassId>, ok: set<ClassId>, i: nat): (r: seq<ClassId>)
    decreases |q| - i
  {
    if i >= |q| then q
    else if q[i] in ok then RetryFixed(Unqueue(q, i), ok, i)
    else RetryFixed(q, ok, i + 1)
  }

  /** Retried from slot i, with no entry before i in ok: what stays queued is exactly the entries not in ok. */
  lemma {:induction false} RetryFixedDrains(q: seq<ClassId>, ok: set<ClassId>, i: nat, x: ClassId)
    requires forall j :: 0 <= j < i && j < |q| ==> q[j] !in ok
    ensures x in RetryFixed(q, ok, i) <==> x in q && x !in ok
    decreases |q| - i
  {
    if i < |q| {
      if q[i] in ok {
        var q' := Unqueue(q, i);
        UnqueueHas(q, i, x);
        forall j | 0 <= j < i && j < |q'|
          ensures q'[j] !in ok
        {
          assert q'[j] == q[j];
        }
        RetryFixedDrains(q', ok, i, x);
      } else {
        RetryFixedDrains(q, ok, i + 1, x);
      }
    }
  }

  /** Every queued entry is a registered class. */
  ghost predicate QueueOk(recs: Records, reg: set<ClassId>, q: seq<ClassId>) {
    forall x :: x in q ==> x in recs && IsClass(recs, x) && x in reg
  }

  /** The queued classes setup_class can link. */
  ghost function Linkables(names: Names, recs: Records, reg: set<ClassId>, rank: ClassId -> nat, q: seq<ClassId>): set<ClassId>
    requires Ok(names, recs, reg, rank)
  {
    set x | x in q && IsClass(recs, x) && Linkable(names, recs, reg, rank, x)
  }

  /** Every class of ok that has left the queue is LOADED. */
  ghost predicate LoadedOut(ok: set<ClassId>, q: seq<ClassId>, recs: Records) {
    forall x :: x in ok && x !in q ==> x in recs && Has(recs[x].info, LOADED)
  }

  /**
    * The third loop on values, from slot i on: setup_class runs on every
    * entry it reaches, call_load follows exactly for the entries of ok,
    * which are dequeued; the records and the events it adds to the trace.
    */
  ghost function RetryRun(names: Names, recs: Records, reg: set<ClassId>, rank: ClassId -> nat, batches: Batches, uid: nat,
                          q: seq<ClassId>, ok: set<ClassId>, i: nat): (Records, seq<Event>)
    decreases |q| - i
  {
    if i >= |q| then (recs, [])
    else
      var s := SetupLoad(names, recs, reg, rank, batches, uid, q[i]);
      var rest := RetryRun(names, s.0, reg, rank, batches, uid, if q[i] in ok then Unqueue(q, i) else q, ok, i + 1);
      (rest.0, s.1 + rest.1)
  }

  /** The third loop keeps the records sound, their chains in place, and growing. */
  lemma {:induction false} RetryRunGrows(names: Names, recs: Records, reg: set<ClassId>, rank: ClassId -> nat, batches: Batches,
                                         uid: nat, q: seq<ClassId>, ok: set<ClassId>, i: nat)
    requires Ok(names, recs, reg, rank) && RecChainsIn(recs, batches) && QueueOk(recs, reg, q)
    ensures Ok(names, RetryRun(names, recs, reg, rank, batches, uid, q, ok, i).0, reg, rank)
    ensures RecChainsIn(RetryRun(names, recs, reg, rank, batches, uid, q, ok, i).0, batches)
    ensures Grows(names, reg, rank, recs, RetryRun(names, recs, reg, rank, batches, uid, q, ok, i).0)
    decreases |q| - i, 1
  {
    if i >= |q| {
      GrowsRefl(names, reg, rank, recs);
    } else {
      RetryRunGrowsAt(names, recs, reg, rank, batches, uid, q, ok, i);
    }
  }

  /** RetryRunGrows for a run that still has entry i to try: that entry's round, then the rest. */
  lemma {:induction false} RetryRunGrowsAt(names: Names, recs: Records, reg: set<ClassId>, rank: ClassId -> nat, batches: Batches,
                                           uid: nat, q: seq<ClassId>, ok: set<ClassId>, i: nat)
    requires Ok(names, recs, reg, rank) && RecChainsIn(recs, batches) && QueueOk(recs, reg, q) && i < |q|
    ensures Ok(names, RetryRun(names, recs, reg, rank, batches, uid, q, ok, i).0, reg, rank)
    ensures RecChainsIn(RetryRun(names, recs, reg, rank, batches, uid, q, ok, i).0, batches)
    ensures Grows(names, reg, rank, recs, RetryRun(names, recs, reg, rank, batches, uid, q, ok, i).0)
    decreases |q| - i, 0
  {
    var s := SetupLoad(names, recs, reg, rank, batches, uid, q[i]).0;
    var q' := if q[i] in ok then Unqueue(q, i) else q;
    RetryStepOk(names, recs, reg, rank, batches, uid, q, ok, i);
    var r := RetryRun(names, s, reg, rank, batches, uid, q', ok, i + 1).0;
    RetryRunGrows(names, s, reg, rank, batches, uid, q', ok, i + 1);
    GrowsTrans(names, reg, rank, recs, s, r);
    RetryRunUnfold(names, recs, reg, rank, batches, uid, q, ok, i);
  }

  /** The third loop's run from slot i is entry i's round followed by the run from slot i + 1. */
  lemma RetryRunUnfold(names: Names, recs: Records, reg: set<ClassId>, rank: ClassId -> nat, batches: Batches,
                       uid: nat, q: seq<ClassId>, ok: set<ClassId>, i: nat)
    requires i < |q|
    ensures RetryRun(names, recs, reg, rank, batches, uid, q, ok, i).0 ==
            RetryRun(names, SetupLoad(names, recs, reg, rank, batches, uid, q[i]).0, reg, rank, batches, uid,
                     if q[i] in ok then Unqueue(q, i) else q, ok, i + 1).0
  {
  }

  /** After one entry of the third loop the records are sound and grown, and the queue still holds registered classes. */
  lemma RetryStepOk(names: Names, recs: Records, reg: set<ClassId>, rank: ClassId -> nat, batches: Batches,
                    uid: nat, q: seq<ClassId>, ok: set<ClassId>, i: nat)
    requires Ok(names, recs, reg, rank) && RecChainsIn(recs, batches) && QueueOk(recs, reg, q) && i < |q|
    ensures Ok(names, SetupLoad(names, recs, reg, rank, batches, uid, q[i]).0, reg, rank)
    ensures RecChainsIn(SetupLoad(names, recs, reg, rank, batches, uid, q[i]).0, batches)
    ensures Grows(names, reg, rank, recs, SetupLoad(names, recs, reg, rank, batches, uid, q[i]).0)
    ensures QueueOk(SetupLoad(names, recs, reg, rank, batches, uid, q[i]).0, reg, if q[i] in ok then Unqueue(q, i) else q)
  {
    var s := SetupLoad(names, recs, reg, rank, batches, uid, q[i]).0;
    SetupLoadGrows(names, recs, reg, rank, batches, uid, q[i]);
    QueueOkGrows(names, reg, rank, recs, s, q);
    if q[i] in ok {
      UnqueueOk(s, reg, q, i);
    }
  }

  /** Records that grow keep every queued entry a registered class. */
  lemma QueueOkGrows(names: Names, reg: set<ClassId>, rank: ClassId -> nat, recs: Records, recs': Records, q: seq<ClassId>)
    requires Ok(names, recs, reg, rank) && Grows(names, reg, rank, recs, recs') && QueueOk(recs, reg, q)
    ensures QueueOk(recs', reg, q)
  {
    forall y | y in q
      ensures y in recs' && IsClass(recs', y)
    {
      assert SameIdentity(recs[y], recs'[y]);
    }
  }

  /** Taking an entry out keeps every queued entry a registered class. */
  lemma UnqueueOk(recs: Records, reg: set<ClassId>, q: seq<ClassId>, i: nat)
    requires QueueOk(recs, reg, q) && i < |q|
    ensures QueueOk(recs, reg, Unqueue(q, i))
  {
    forall y | y in Unqueue(q, i)
      ensures y in q
    {
      UnqueueHas(q, i, y);
    }
  }

  /** The third loop adds only load calls, each made before its class had LOADED. */
  lemma {:induction false} RetryRunLoads(names: Names, recs: Records, reg: set<ClassId>, rank: ClassId -> nat, batches: Batches,
                                         uid: nat, q: seq<ClassId>, ok: set<ClassId>, i: nat, t: seq<Event>)
    requires Ok(names, recs, reg, rank) && RecChainsIn(recs, batches) && QueueOk(recs, reg, q)
    ensures LoadsOnly(t, t + RetryRun(names, recs, reg, rank, batches, uid, q, ok, i).1)
    decreases |q| - i
  {
    if i >= |q| {
      assert t + [] == t;
    } else {
      var s := SetupLoad(names, recs, reg, rank, batches, uid, q[i]);
      var q' := if q[i] in ok then Unqueue(q, i) else q;
      var rest := RetryRun(names, s.0, reg, rank, batches, uid, q', ok, i + 1).1;
      RetryStepOk(names, recs, reg, rank, batches, uid, q, ok, i);
      SetupLoadLoads(names, recs, reg, rank, batches, uid, q[i], t);
      RetryRunLoads(names, s.0, reg, rank, batches, uid, q', ok, i + 1, t + s.1);
      Assoc(t, s.1, rest);
      LoadsOnlyTrans(t, t + s.1, t + s.1 + rest);
    }
  }

  /** One round of the third loop moves the loop's remaining run forward by one entry and keeps its end. */
  lemma RetryRunNext(names: Names, reg: set<ClassId>, rank: ClassId -> nat, batches: Batches, uid: nat, ok: set<ClassId>,
                     recs1: Records, q: seq<ClassId>, i: nat, t1: seq<Event>, recs2: Records, q2: seq<ClassId>, t2: seq<Event>,
                     R: (Records, seq<Event>), t0: seq<Event>, j: nat)
    requires i < |q| && j == i + 1
    requires RetryRun(names, recs1, reg, rank, batches, uid, q, ok, i).0 == R.0
    requires t1 + RetryRun(names, recs1, reg, rank, batches, uid, q, ok, i).1 == t0 + R.1
    requires recs2 == SetupLoad(names, recs1, reg, rank, batches, uid, q[i]).0
    requires t2 == t1 + SetupLoad(names, recs1, reg, rank, batches, uid, q[i]).1
    requires q2 == if q[i] in ok then Unqueue(q, i) else q
    ensures RetryRun(names, recs2, reg, rank, batches, uid, q2, ok, j).0 == R.0
    ensures t2 + RetryRun(names, recs2, reg, rank, batches, uid, q2, ok, j).1 == t0 + R.1
  {
    Assoc(t1, SetupLoad(names, recs1, reg, rank, batches, uid, q[i]).1, RetryRun(names, recs2, reg, rank, batches, uid, q2, ok, j).1);
  }

  /** Taking entry i out of the load queue: the last entry moves into its slot and the array shrinks by one. */
  method Dequeue(rt: Runtime, i: nat)
    requires rt.Valid() && i < |rt.loadQueue|
    modifies rt`loadQueue
    ensures rt.Valid() && rt.loadQueue == Unqueue(old(rt.loadQueue), i)
  {
    var n := |rt.loadQueue| - 1;
    if i == n {
      rt.loadQueue := rt.loadQueue[..n];
    } else {
      rt.loadQueue := rt.loadQueue[..n][i := rt.loadQueue[n]];
    }
  }

  /** What one round of the third loop adds to the loop's facts so far. */
  lemma RetryRound(names: Names, reg: set<ClassId>, rank: ClassId -> nat, recs0: Records, recs1: Records, recs2: Records,
                   q0: seq<ClassId>, ok: set<ClassId>, q: seq<ClassId>, q': seq<ClassId>, i: nat, linked: bool,
                   t0: seq<Event>, t1: seq<Event>, t2: seq<Event>)
    requires Ok(names, recs0, reg, rank) && Ok(names, recs1, reg, rank)
    requires Grows(names, reg, rank, recs0, recs1) && Grows(names, reg, rank, recs1, recs2)
    requires forall y :: y in q ==> y in q0
    requires i < |q| && Retry(q, ok, i) == Retry(q0, ok, 0)
    requires LoadedOut(ok, q, recs1) && LoadsOnly(t0, t1) && LoadsOnly(t1, t2)
    requires linked <==> q[i] in ok
    requires linked ==> q[i] in recs2 && Has(recs2[q[i]].info, LOADED)
    requires q' == if linked then Unqueue(q, i) else q
    ensures Grows(names, reg, rank, recs0, recs2)
    ensures forall y :: y in q' ==> y in q0
    ensures i + 1 <= |q'| + 1 && |q'| - i < |q| + 1 - i
    ensures Retry(q', ok, i + 1) == Retry(q0, ok, 0)
    ensures LoadedOut(ok, q', recs2)
    ensures LoadsOnly(t0, t2)
  {
    GrowsTrans(names, reg, rank, recs0, recs1, recs2);
    LoadsOnlyTrans(t0, t1, t2);
    forall y | y in q'
      ensures y in q0
    {
      if linked {
        UnqueueHas(q, i, y);
      }
    }
    forall y | y in ok && y !in q'
      ensures y in recs2 && Has(recs2[y].info, LOADED)
    {
      if linked {
        UnqueueHas(q, i, y);
      }
      if y !in q {
        assert y in recs1;
        assert Keeps(recs1[y].info, recs2[y].info);
      }
    }
  }

  /** The rest of one round of the third loop, once setup_class and call_load have run on entry i: dequeue it if it was linked, then i++. */
  method RetryTail(rt: Runtime, i: nat, linked: bool, ghost names: Names, ghost reg: set<ClassId>, ghost recs0: Records,
                   ghost recs1: Records, ghost q0: seq<ClassId>, ghost ok: set<ClassId>, ghost t0: seq<Event>, ghost t1: seq<Event>)
      returns (i': nat)
    requires rt.Valid() && rt.Names() == names && rt.Registered() == reg && i < |rt.loadQueue|
    requires Ok(names, recs0, reg, rt.rank) && Ok(names, recs1, reg, rt.rank)
    requires Grows(names, reg, rt.rank, recs0, recs1) && Grows(names, reg, rt.rank, recs1, rt.recs)
    requires forall y :: y in rt.loadQueue ==> y in q0
    requires Retry(rt.loadQueue, ok, i) == Retry(q0, ok, 0)
    requires LoadedOut(ok, rt.loadQueue, recs1) && LoadsOnly(t0, t1) && LoadsOnly(t1, rt.trace)
    requires linked <==> rt.loadQueue[i] in ok
    requires linked ==> rt.loadQueue[i] in rt.recs && Has(rt.recs[rt.loadQueue[i]].info, LOADED)
    modifies rt`loadQueue
    ensures rt.Valid() && rt.Names() == names && rt.Registered() == reg
    ensures Grows(names, reg, rt.rank, recs0, rt.recs)
    ensures forall y :: y in rt.loadQueue ==> y in q0
    ensures i' == i + 1 && i' <= |rt.loadQueue| + 1 && |rt.loadQueue| + 1 - i' < old(|rt.loadQueue|) + 1 - i
    ensures Retry(rt.loadQueue, ok, i') == Retry(q0, ok, 0)
    ensures LoadedOut(ok, rt.loadQueue, rt.recs) && LoadsOnly(t0, rt.trace)
    ensures rt.loadQueue == if linked then Unqueue(old(rt.loadQueue), i) else old(rt.loadQueue)
  {
    ghost var q := rt.loadQueue;
    if linked {
      Dequeue(rt, i);
    }
    i' := i + 1;
    RetryRound(names, reg, rt.rank, recs0, recs1, rt.recs, q0, ok, q, rt.loadQueue, i, linked, t0, t1, rt.trace);
  }

  /** One round of the third loop, stated against the loop's start. */
  method RetryNext(rt: Runtime, i: nat, ghost names: Names, ghost reg: set<ClassId>, ghost recs0: Records,
                   ghost q0: seq<ClassId>, ghost ok: set<ClassId>, ghost t0: seq<Event>, ghost batches: Batches, ghost uid: nat)
      returns (i': nat)
    requires rt.Valid() && rt.Names() == names && rt.Registered() == reg && i < |rt.loadQueue|
    requires rt.batches == batches && rt.loadUid == uid
    requires Ok(names, recs0, reg, rt.rank) && Grows(names, reg, rt.rank, recs0, rt.recs)
    requires QueueOk(recs0, reg, q0) && ok == Linkables(names, recs0, reg, rt.rank, q0)
    requires forall y :: y in rt.loadQueue ==> y in q0
    requires Retry(rt.loadQueue, ok, i) == Retry(q0, ok, 0)
    requires LoadedOut(ok, rt.loadQueue, rt.recs) && LoadsOnly(t0, rt.trace)
    modifies rt`recs, rt`trace, rt`loadQueue
    ensures rt.Valid() && rt.Names() == names && rt.Registered() == reg
    ensures Grows(names, reg, rt.rank, recs0, rt.recs)
    ensures forall y :: y in rt.loadQueue ==> y in q0
    ensures i' <= |rt.loadQueue| + 1 && |rt.loadQueue| + 1 - i' < old(|rt.loadQueue|) + 1 - i
    ensures Retry(rt.loadQueue, ok, i') == Retry(q0, ok, 0)
    ensures LoadedOut(ok, rt.loadQueue, rt.recs) && LoadsOnly(t0, rt.trace)
    ensures i' == i + 1
    ensures rt.recs == SetupLoad(names, old(rt.recs), reg, rt.rank, batches, uid, old(rt.loadQueue[i])).0
    ensures rt.trace == old(rt.trace) + SetupLoad(names, old(rt.recs), reg, rt.rank, batches, uid, old(rt.loadQueue[i])).1
    ensures rt.loadQueue == if old(rt.loadQueue[i]) in ok then Unqueue(old(rt.loadQueue), i) else old(rt.loadQueue)
  {
    ghost var recs1, t1 := rt.recs, rt.trace;
    var linked := RetryEntry(rt, i, names, reg, recs0, q0, ok, batches, uid);
    i' := RetryTail(rt, i, linked, names, reg, recs0, recs1, q0, ok, t0, t1);
  }

  /** `if (setup_class(load_queue[i])) call_load(load_queue[i])`: entry i is linked and loaded exactly when it is in ok. */
  method RetryEntry(rt: Runtime, i: nat, ghost names: Names, ghost reg: set<ClassId>, ghost recs0: Records,
                    ghost q0: seq<ClassId>, ghost ok: set<ClassId>, ghost batches: Batches, ghost uid: nat)
      returns (linked: bool)
    requires rt.Valid() && rt.Names() == names && rt.Registered() == reg && i < |rt.loadQueue|
    requires rt.batches == batches && rt.loadUid == uid
    requires Ok(names, recs0, reg, rt.rank) && Grows(names, reg, rt.rank, recs0, rt.recs)
    requires QueueOk(recs0, reg, q0) && ok == Linkables(names, recs0, reg, rt.rank, q0)
    requires rt.loadQueue[i] in q0
    modifies rt`recs, rt`trace
    ensures rt.Valid() && rt.Names() == names && rt.Registered() == reg && rt.loadQueue == old(rt.loadQueue)
    ensures Grows(names, reg, rt.rank, old(rt.recs), rt.recs) && LoadsOnly(old(rt.trace), rt.trace)
    ensures linked <==> rt.loadQueue[i] in ok
    ensures linked ==> rt.loadQueue[i] in rt.recs && Has(rt.recs[rt.loadQueue[i]].info, LOADED)
    ensures rt.recs == SetupLoad(names, old(rt.recs), reg, rt.rank, batches, uid, rt.loadQueue[i]).0
    ensures rt.trace == old(rt.trace) + SetupLoad(names, old(rt.recs), reg, rt.rank, batches, uid, rt.loadQueue[i]).1
  {
    var x := rt.loadQueue[i];
    LinkableAgree(names, recs0, rt.recs, reg, rt.rank, x);
    assert x in ok <==> Linkable(names, rt.recs, reg, rt.rank, x);
    linked := SetupAndLoad(rt, x);
  }

  /**
    * The third loop of objc_register_all_classes as written: each queued
    * class setup_class can link is loaded and dequeued, and i moves on
    * past the entry that took its slot, so that entry waits for a later
    * symtab.
    */
  method RetryQueue(rt: Runtime)
    requires rt.Valid() && QueueOk(rt.recs, rt.Registered(), rt.loadQueue)
    modifies rt`recs, rt`trace, rt`loadQueue
    ensures rt.Valid()
    ensures Grows(old(rt.Names()), old(rt.Registered()), rt.rank, old(rt.recs), rt.recs)
    ensures rt.loadQueue == Retry(old(rt.loadQueue), Linkables(old(rt.Names()), old(rt.recs), old(rt.Registered()), rt.rank, old(rt.loadQueue)), 0)
    ensures LoadedOut(Linkables(old(rt.Names()), old(rt.recs), old(rt.Registered()), rt.rank, old(rt.loadQueue)), rt.loadQueue, rt.recs)
    ensures LoadsOnly(old(rt.trace), rt.trace)
    ensures rt.recs == RetryRun(old(rt.Names()), old(rt.recs), old(rt.Registered()), rt.rank, rt.batches, rt.loadUid, old(rt.loadQueue),
                                Linkables(old(rt.Names()), old(rt.recs), old(rt.Registered()), rt.rank, old(rt.loadQueue)), 0).0
    ensures rt.trace == old(rt.trace) +
                        RetryRun(old(rt.Names()), old(rt.recs), old(rt.Registered()), rt.rank, rt.batches, rt.loadUid, old(rt.loadQueue),
                                 Linkables(old(rt.Names()), old(rt.recs), old(rt.Registered()), rt.rank, old(rt.loadQueue)), 0).1
  {
    ghost var names, recs0, reg, q0, t0 := rt.Names(), rt.recs, rt.Registered(), rt.loadQueue, rt.trace;
    ghost var ok := Linkables(names, recs0, reg, rt.rank, q0);
    ghost var batches, uid := rt.batches, rt.loadUid;
    ghost var R := RetryRun(names, recs0, reg, rt.rank, batches, uid, q0, ok, 0);
    GrowsRefl(names, reg, rt.rank, recs0);
    var i: nat := 0;
    while i < |rt.loadQueue|
      invariant rt.Valid() && rt.Names() == names && rt.Registered() == reg
      invariant i <= |rt.loadQueue| + 1
      invariant Grows(names, reg, rt.rank, recs0, rt.recs)
      invariant forall y :: y in rt.loadQueue ==> y in q0
      invariant Retry(rt.loadQueue, ok, i) == Retry(q0, ok, 0)
      invariant LoadedOut(ok, rt.loadQueue, rt.recs) && LoadsOnly(t0, rt.trace)
      invariant RetryRun(names, rt.recs, reg, rt.rank, batches, uid, rt.loadQueue, ok, i).0 == R.0
      invariant rt.trace + RetryRun(names, rt.recs, reg, rt.rank, batches, uid, rt.loadQueue, ok, i).1 == t0 + R.1
      decreases |rt.loadQueue| + 1 - i
    {
      ghost var recs1, q1, t1, i1 := rt.recs, rt.loadQueue, rt.trace, i;
      i := RetryNext(rt, i, names, reg, recs0, q0, ok, t0, batches, uid);
      RetryRunNext(names, reg, rt.rank, batches, uid, ok, recs1, q1, i1, t1, rt.recs, rt.loadQueue, rt.trace, R, t0, i);
    }
    assert i >= |rt.loadQueue|;
    assert rt.trace + [] == rt.trace;
  }

  // ---------------------------------------------------------------------
  // objc_register_all_classes

  /**
    * Where the three loops leave a symtab: each of its classes is LOADED or
    * still queued, and every queued class is a registered class.
    */
  ghost predicate Settled(recs: Records, reg: set<ClassId>, defs: seq<ClassId>, q: seq<ClassId>) {
    && (forall j :: 0 <= j < |defs| ==> defs[j] in recs && (Has(recs[defs[j]].info, LOADED) || defs[j] in q))
    && QueueOk(recs, reg, q)
  }

  /** Every class of q0 that setup_class cannot link is still in q. */
  ghost predicate StuckStay(names: Names, recs: Records, reg: set<ClassId>, rank: ClassId -> nat, q0: seq<ClassId>, q: seq<ClassId>)
    requires Ok(names, recs, reg, rank)
  {
    forall x :: x in q0 && x in recs && IsClass(recs, x) && !Linkable(names, recs, reg, rank, x) ==> x in q
  }

  /** After the second loop the queue still holds registered classes only: the old entries and the deferred symtab classes. */
  lemma QueueAfterFirstPass(names: Names, recs0: Records, recs1: Records, reg: set<ClassId>, rank: ClassId -> nat, batches: Batches,
                            uid: nat, defs: seq<ClassId>, q0: seq<ClassId>)
    requires Ok(names, recs0, reg, rank) && Symtab(recs0, batches, defs) && Grows(names, reg, rank, recs0, recs1)
    requires QueueOk(recs0, reg, q0) && forall j :: 0 <= j < |defs| ==> defs[j] in reg
    ensures QueueOk(recs1, reg, q0 + Deferred(names, recs0, reg, rank, batches, uid, defs, |defs|))
    ensures forall x :: x in q0 + Deferred(names, recs0, reg, rank, batches, uid, defs, |defs|) ==> x in q0 || x in defs
  {
    var q1 := q0 + Deferred(names, recs0, reg, rank, batches, uid, defs, |defs|);
    DeferredHas(names, recs0, reg, rank, batches, uid, defs, |defs|);
    forall x | x in q1
      ensures x in recs1 && IsClass(recs1, x) && x in reg && (x in q0 || x in defs)
    {
      assert IsClass(recs0, x) && x in reg;
      assert SameIdentity(recs0[x], recs1[x]);
    }
  }

  /** A symtab class not LOADED after the second loop was deferred, so it is queued; the retry loads it or leaves it queued. */
  lemma SymtabSettles(names: Names, reg: set<ClassId>, rank: ClassId -> nat, batches: Batches, uid: nat, defs: seq<ClassId>,
                      recs1: Records, recs2: Records, recs3: Records, q0: seq<ClassId>, q2: seq<ClassId>, q3: seq<ClassId>)
    requires Ok(names, recs1, reg, rank) && Ok(names, recs2, reg, rank)
    requires Symtab(recs1, batches, defs) && Grows(names, reg, rank, recs2, recs3)
    requires q2 == q0 + Deferred(names, recs1, reg, rank, batches, uid, defs, |defs|)
    requires LoadedBelow(names, recs1, reg, rank, batches, uid, defs, |defs|, recs2)
    requires q3 == Retry(q2, Linkables(names, recs2, reg, rank, q2), 0)
    requires LoadedOut(Linkables(names, recs2, reg, rank, q2), q3, recs3)
    ensures forall j :: 0 <= j < |defs| ==> defs[j] in recs3 && (Has(recs3[defs[j]].info, LOADED) || defs[j] in q3)
  {
    var ok := Linkables(names, recs2, reg, rank, q2);
    DeferredHas(names, recs1, reg, rank, batches, uid, defs, |defs|);
    forall j | 0 <= j < |defs|
      ensures defs[j] in recs3 && (Has(recs3[defs[j]].info, LOADED) || defs[j] in q3)
    {
      var x := defs[j];
      assert x in recs2 && Keeps(recs2[x].info, recs3[x].info);
      RetryKeeps(q2, ok, 0, x);
      if !Has(recs2[x].info, LOADED) {
        assert Defers(names, recs1, reg, rank, batches, uid, defs[j]);
        assert x in q2;
      }
    }
  }

  /** What the retry leaves queued came from the queue it was given, and each class of that queue setup_class cannot link stays. */
  lemma QueueSettles(names: Names, reg: set<ClassId>, rank: ClassId -> nat, recs2: Records, recs3: Records, q2: seq<ClassId>, q3: seq<ClassId>)
    requires Ok(names, recs2, reg, rank) && Ok(names, recs3, reg, rank) && Grows(names, reg, rank, recs2, recs3)
    requires QueueOk(recs2, reg, q2)
    requires q3 == Retry(q2, Linkables(names, recs2, reg, rank, q2), 0)
    ensures forall x :: x in q3 ==> x in q2 && x in recs3 && IsClass(recs3, x) && x in reg
    ensures forall x :: x in q2 && x in recs3 && IsClass(recs3, x) && !Linkable(names, recs3, reg, rank, x) ==> x in q3
  {
    var ok := Linkables(names, recs2, reg, rank, q2);
    forall x | x in q2
      ensures x in recs3 && IsClass(recs3, x) && x in reg
      ensures !Linkable(names, recs3, reg, rank, x) ==> x in q3
    {
      RetryKeeps(q2, ok, 0, x);
      LinkableAgree(names, recs2, recs3, reg, rank, x);
    }
    forall x | x in q3
      ensures x in q2
    {
      RetryKeeps(q2, ok, 0, x);
    }
  }

  /** The third loop, run on the queue the second loop left: the symtab settles. */
  method RetrySettles(rt: Runtime, defs: seq<ClassId>, ghost names: Names, ghost reg: set<ClassId>, ghost recs1: Records,
                      ghost q0: seq<ClassId>)
    requires rt.Valid() && rt.Names() == names && rt.Registered() == reg
    requires Ok(names, recs1, reg, rt.rank) && Symtab(recs1, rt.batches, defs) && Grows(names, reg, rt.rank, recs1, rt.recs)
    requires QueueOk(rt.recs, reg, rt.loadQueue)
    requires rt.loadQueue == q0 + Deferred(names, recs1, reg, rt.rank, rt.batches, rt.loadUid, defs, |defs|)
    requires LoadedBelow(names, recs1, reg, rt.rank, rt.batches, rt.loadUid, defs, |defs|, rt.recs)
    modifies rt`recs, rt`trace, rt`loadQueue
    ensures rt.Valid()
    ensures Settled(rt.recs, rt.Registered(), defs, rt.loadQueue)
    ensures forall x :: x in rt.loadQueue ==> x in old(rt.loadQueue)
    ensures StuckStay(rt.Names(), rt.recs, rt.Registered(), rt.rank, old(rt.loadQueue), rt.loadQueue)
    ensures LoadsOnly(old(rt.trace), rt.trace)
    ensures rt.recs == RetryRun(names, old(rt.recs), reg, rt.rank, rt.batches, rt.loadUid, old(rt.loadQueue),
                                Linkables(names, old(rt.recs), reg, rt.rank, old(rt.loadQueue)), 0).0
    ensures rt.trace == old(rt.trace) + RetryRun(names, old(rt.recs), reg, rt.rank, rt.batches, rt.loadUid, old(rt.loadQueue),
                                                 Linkables(names, old(rt.recs), reg, rt.rank, old(rt.loadQueue)), 0).1
  {
    ghost var recs2, q2 := rt.recs, rt.loadQueue;
    RetryQueue(rt);
    assert rt.Names() == names && rt.Registered() == reg;
    SymtabSettles(names, reg, rt.rank, rt.batches, rt.loadUid, defs, recs1, recs2, rt.recs, q0, q2, rt.loadQueue);
    QueueSettles(names, reg, rt.rank, recs2, rt.recs, q2, rt.loadQueue);
  }

  /**
    * The second and third loops of objc_register_all_classes, on classes
    * registered already: every symtab class ends LOADED or queued, and a
    * queued class setup_class still cannot link stays queued.
    */
  method LoadSymtab(rt: Runtime, defs: seq<ClassId>)
    requires rt.Valid() && QueueOk(rt.recs, rt.Registered(), rt.loadQueue)
    requires forall j :: 0 <= j < |defs| ==> IsClass(rt.recs, defs[j]) && defs[j] in rt.Registered()
    modifies rt`recs, rt`trace, rt`loadQueue
    ensures rt.Valid()
    ensures Settled(rt.recs, rt.Registered(), defs, rt.loadQueue)
    ensures forall x :: x in rt.loadQueue ==> x in old(rt.loadQueue) || x in defs
    ensures StuckStay(rt.Names(), rt.recs, rt.Registered(), rt.rank, old(rt.loadQueue), rt.loadQueue)
    ensures LoadsOnly(old(rt.trace), rt.trace)
    ensures rt.recs == SymtabRun(old(rt.Names()), old(rt.recs), old(rt.Registered()), rt.rank, rt.batches, rt.loadUid, defs, old(rt.loadQueue)).0
    ensures rt.trace == old(rt.trace) +
                        SymtabRun(old(rt.Names()), old(rt.recs), old(rt.Registered()), rt.rank, rt.batches, rt.loadUid, defs, old(rt.loadQueue)).1
  {
    ghost var names, recs1, reg, q0, t0 := rt.Names(), rt.recs, rt.Registered(), rt.loadQueue, rt.trace;
    ghost var batches, uid := rt.batches, rt.loadUid;
    ValidHooks(rt);
    assert Symtab(recs1, batches, defs) && RecChainsIn(recs1, batches);
    FirstPass(rt, defs);
    ghost var recs2, q2, t2 := rt.recs, rt.loadQueue, rt.trace;
    assert rt.Names() == names && rt.Registered() == reg;
    QueueAfterFirstPass(names, recs1, rt.recs, reg, rt.rank, batches, uid, defs, q0);
    RetrySettles(rt, defs, names, reg, recs1, q0);
    LoadsOnlyTrans(t0, t2, rt.trace);
    SymtabRunIs(names, recs1, reg, rt.rank, batches, uid, defs, q0, t0, recs2, q2, t2, rt.recs, rt.trace);
  }

  /**
    * The second and third loops on values: the first pass over defs, then
    * one retry of the queue it leaves, with the classes setup_class can
    * link at that point. Records the loops cannot start from are left alone.
    */
  ghost function SymtabRun(names: Names, recs: Records, reg: set<ClassId>, rank: ClassId -> nat, batches: Batches, uid: nat,
                           defs: seq<ClassId>, q0: seq<ClassId>): (Records, seq<Event>)
  {
    if Ok(names, recs, reg, rank) && RecChainsIn(recs, batches) && Symtab(recs, batches, defs)
       && forall j :: 0 <= j < |defs| ==> defs[j] in reg
    then
      var p := FirstRun(names, recs, reg, rank, batches, uid, defs, |defs|);
      FirstRunGrows(names, recs, reg, rank, batches, uid, defs, |defs|);
      var q := q0 + Deferred(names, recs, reg, rank, batches, uid, defs, |defs|);
      var r := RetryRun(names, p.0, reg, rank, batches, uid, q, Linkables(names, p.0, reg, rank, q), 0);
      (r.0, p.1 + r.1)
    else (recs, [])
  }

  /** What the first pass and the retry leave, one after the other, is SymtabRun's. */
  lemma SymtabRunIs(names: Names, recs: Records, reg: set<ClassId>, rank: ClassId -> nat, batches: Batches, uid: nat,
                    defs: seq<ClassId>, q0: seq<ClassId>, t0: seq<Event>,
                    recs2: Records, q2: seq<ClassId>, t2: seq<Event>, recs3: Records, t3: seq<Event>)
    requires Ok(names, recs, reg, rank) && RecChainsIn(recs, batches) && Symtab(recs, batches, defs)
    requires forall j :: 0 <= j < |defs| ==> defs[j] in reg
    requires recs2 == FirstRun(names, recs, reg, rank, batches, uid, defs, |defs|).0
    requires t2 == t0 + FirstRun(names, recs, reg, rank, batches, uid, defs, |defs|).1
    requires q2 == q0 + Deferred(names, recs, reg, rank, batches, uid, defs, |defs|)
    requires Ok(names, recs2, reg, rank)
    requires recs3 == RetryRun(names, recs2, reg, rank, batches, uid, q2, Linkables(names, recs2, reg, rank, q2), 0).0
    requires t3 == t2 + RetryRun(names, recs2, reg, rank, batches, uid, q2, Linkables(names, recs2, reg, rank, q2), 0).1
    ensures recs3 == SymtabRun(names, recs, reg, rank, batches, uid, defs, q0).0
    ensures t3 == t0 + SymtabRun(names, recs, reg, rank, batches, uid, defs, q0).1
  {
    Assoc(t0, FirstRun(names, recs, reg, rank, batches, uid, defs, |defs|).1,
          RetryRun(names, recs2, reg, rank, batches, uid, q2, Linkables(names, recs2, reg, rank, q2), 0).1);
  }

  /** The second and third loops keep the records sound and growing. */
  lemma SymtabRunGrows(names: Names, recs: Records, reg: set<ClassId>, rank: ClassId -> nat, batches: Batches, uid: nat,
                       defs: seq<ClassId>, q0: seq<ClassId>)
    requires Ok(names, recs, reg, rank) && RecChainsIn(recs, batches) && Symtab(recs, batches, defs) && QueueOk(recs, reg, q0)
    requires forall j :: 0 <= j < |defs| ==> defs[j] in reg
    ensures Ok(names, SymtabRun(names, recs, reg, rank, batches, uid, defs, q0).0, reg, rank)
    ensures Grows(names, reg, rank, recs, SymtabRun(names, recs, reg, rank, batches, uid, defs, q0).0)
  {
    var p := FirstRun(names, recs, reg, rank, batches, uid, defs, |defs|).0;
    var q := q0 + Deferred(names, recs, reg, rank, batches, uid, defs, |defs|);
    SymtabRetryReady(names, recs, reg, rank, batches, uid, defs, q0);
    RetryRunGrows(names, p, reg, rank, batches, uid, q, Linkables(names, p, reg, rank, q), 0);
    GrowsTrans(names, reg, rank, recs, p, RetryRun(names, p, reg, rank, batches, uid, q, Linkables(names, p, reg, rank, q), 0).0);
  }

  /** The second and third loops add only load calls, each made before its class had LOADED. */
  lemma SymtabRunLoads(names: Names, recs: Records, reg: set<ClassId>, rank: ClassId -> nat, batches: Batches, uid: nat,
                       defs: seq<ClassId>, q0: seq<ClassId>, t: seq<Event>)
    requires Ok(names, recs, reg, rank) && RecChainsIn(recs, batches) && Symtab(recs, batches, defs) && QueueOk(recs, reg, q0)
    requires forall j :: 0 <= j < |defs| ==> defs[j] in reg
    ensures LoadsOnly(t, t + SymtabRun(names, recs, reg, rank, batches, uid, defs, q0).1)
  {
    var p := FirstRun(names, recs, reg, rank, batches, uid, defs, |defs|);
    var q := q0 + Deferred(names, recs, reg, rank, batches, uid, defs, |defs|);
    FirstRunLoads(names, recs, reg, rank, batches, uid, defs, |defs|, t);
    SymtabRetryReady(names, recs, reg, rank, batches, uid, defs, q0);
    var e := RetryRun(names, p.0, reg, rank, batches, uid, q, Linkables(names, p.0, reg, rank, q), 0).1;
    RetryRunLoads(names, p.0, reg, rank, batches, uid, q, Linkables(names, p.0, reg, rank, q), 0, t + p.1);
    LoadsOnlyChain(t, p.1, e);
  }

  /** Early load calls followed by more early load calls. */
  lemma LoadsOnlyChain(t: seq<Event>, a: seq<Event>, b: seq<Event>)
    requires LoadsOnly(t, t + a) && LoadsOnly(t + a, t + a + b)
    ensures LoadsOnly(t, t + (a + b))
  {
    LoadsOnlyTrans(t, t + a, t + a + b);
    Assoc(t, a, b);
  }

  /** The first pass leaves records and a queue the retry can start from; SymtabRun is that retry after it. */
  lemma SymtabRetryReady(names: Names, recs: Records, reg: set<ClassId>, rank: ClassId -> nat, batches: Batches, uid: nat,
                         defs: seq<ClassId>, q0: seq<ClassId>)
    requires Ok(names, recs, reg, rank) && RecChainsIn(recs, batches) && Symtab(recs, batches, defs) && QueueOk(recs, reg, q0)
    requires forall j :: 0 <= j < |defs| ==> defs[j] in reg
    ensures Ok(names, FirstRun(names, recs, reg, rank, batches, uid, defs, |defs|).0, reg, rank)
    ensures Grows(names, reg, rank, recs, FirstRun(names, recs, reg, rank, batches, uid, defs, |defs|).0)
    ensures RecChainsIn(FirstRun(names, recs, reg, rank, batches, uid, defs, |defs|).0, batches)
    ensures QueueOk(FirstRun(names, recs, reg, rank, batches, uid, defs, |defs|).0, reg,
                    q0 + Deferred(names, recs, reg, rank, batches, uid, defs, |defs|))
    ensures SymtabRun(names, recs, reg, rank, batches, uid, defs, q0) ==
            var p := FirstRun(names, recs, reg, rank, batches, uid, defs, |defs|);
            var q := q0 + Deferred(names, recs, reg, rank, batches, uid, defs, |defs|);
            var r := RetryRun(names, p.0, reg, rank, batches, uid, q, Linkables(names, p.0, reg, rank, q), 0);
            (r.0, p.1 + r.1)
  {
    FirstRunGrows(names, recs, reg, rank, batches, uid, defs, |defs|);
    QueueAfterFirstPass(names, recs, FirstRun(names, recs, reg, rank, batches, uid, defs, |defs|).0, reg, rank, batches, uid, defs, q0);
  }

  /**
    * objc_register_all_classes: register every class of the symtab, load
    * each one that has a load method and can be linked (marking the
    * loadless ones LOADED), queue the ones that must wait, then retry the
    * queue once.
    */
  method RegisterAllClasses(rt: Runtime, defs: seq<ClassId>)
    requires rt.Valid() && QueueOk(rt.recs, rt.Registered(), rt.loadQueue)
    requires forall j :: 0 <= j < |defs| ==>
               defs[j] in rt.recs && IsClass(rt.recs, defs[j]) && RankedBinding(rt.recs, rt.rank, rt.recs[defs[j]].name, defs[j])
    modifies rt`table, rt`dtableOf, rt`recs, rt`trace, rt`loadQueue
    ensures rt.Valid()
    ensures rt.Names() == BindAll(old(rt.Names()), old(rt.recs), defs, |defs|)
    ensures Settled(rt.recs, rt.Registered(), defs, rt.loadQueue)
    ensures forall x :: x in rt.loadQueue ==> x in old(rt.loadQueue) || x in defs
    ensures StuckStay(rt.Names(), rt.recs, rt.Registered(), rt.rank, old(rt.loadQueue), rt.loadQueue)
    ensures LoadsOnly(old(rt.trace), rt.trace)
    ensures rt.recs == SymtabRun(rt.Names(), old(rt.recs), rt.Registered(), rt.rank, rt.batches, rt.loadUid, defs, old(rt.loadQueue)).0
    ensures rt.trace == old(rt.trace) + SymtabRun(rt.Names(), old(rt.recs), rt.Registered(), rt.rank, rt.batches, rt.loadUid, defs, old(rt.loadQueue)).1
  {
    ghost var reg0, q0, dt0 := rt.Registered(), rt.loadQueue, rt.dtableOf;
    RegisterDefs(rt, defs);
    PointAllHas(dt0, rt.recs, defs, |defs|);
    assert reg0 <= rt.Registered() && QueueOk(rt.recs, rt.Registered(), q0);
    LoadSymtab(rt, defs);
  }

  // ---------------------------------------------------------------------
  // Load order: the first pass's LOADED mark cuts call_load's walk

  /** No class has LOADED while its superclass lacks it: call_load's walk, stopping at LOADED, then reaches every ancestor still to load. */
  ghost predicate LoadedClosed(recs: Records) {
    forall x {:trigger recs[x]} :: IsClass(recs, x) && Has(recs[x].info, LOADED) && recs[x].superclass.Some? ==>
      recs[x].superclass.value in recs && Has(recs[recs[x].superclass.value].info, LOADED)
  }

  /**
    * Three linked classes A (1) <- B (2) <- C (3) and their metaclasses
    * (11, 12, 13): A's and C's metaclasses hold a load method (batches 21
    * and 23), B's none. B carries LOADED from the first pass's mark, A does
    * not: the records after the first pass marked B (defs B, C, A) and
    * setup_class(C) linked all three.
    */
  function LoadExampleRecs(): Records {
    var linked := CLASS | SETUP;
    var meta := METACLASS | SETUP;
    map[1 := ClassRec("A", None, None, 11, linked, 0, None, [], [], Some([Some(2), None])),
        2 := ClassRec("B", Some("A"), Some(1), 12, linked | LOADED, 0, None, [], [], Some([Some(3), None])),
        3 := ClassRec("C", Some("B"), Some(2), 13, linked, 0, None, [], [], None),
        11 := ClassRec("A", None, Some(1), 11, meta, 0, None, [], [21], Some([Some(12), None])),
        12 := ClassRec("B", None, Some(11), 12, meta, 0, None, [], [], Some([Some(13), None])),
        13 := ClassRec("C", None, Some(12), 13, meta, 0, None, [], [23], None)]
  }

  /** The example's ranks: a class's rank is its address. */
  function LoadExampleRank(x: ClassId): nat {
    x
  }

  function LoadExampleBatches(uid: nat): Batches {
    map[21 := [Method(Selector(uid, "v8@0:4"), 101)], 23 := [Method(Selector(uid, "v8@0:4"), 103)]]
  }

  /** The classes of the example are 1, 2 and 3, each with its metaclass and callable chains. */
  lemma LoadExampleHooks(uid: nat)
    ensures HooksOk(LoadExampleRecs(), LoadExampleBatches(uid), LoadExampleRank)
  {
    var recs := LoadExampleRecs();
    var batches := LoadExampleBatches(uid);
    assert recs.Keys == {1, 2, 3, 11, 12, 13};
    forall x: ClassId | IsClass(recs, x)
      ensures x == 1 || x == 2 || x == 3
    {
      assert x in {1, 2, 3, 11, 12, 13};
    }
    assert Has(CLASS | SETUP, CLASS) && Has(CLASS | SETUP | LOADED, CLASS);
    assert ChainIn(batches, [21]) && ChainIn(batches, [23]) && ChainIn(batches, []);
  }

  /** The walk up from C stops at B, which has LOADED. */
  lemma LoadExamplePending()
    ensures IsClass(LoadExampleRecs(), 3) && SupersRanked(LoadExampleRecs(), LoadExampleRank)
    ensures Pending(LoadExampleRecs(), LoadExampleRank, 3, LOADED) == [3]
  {
    LoadExampleHooks(0);
    assert Has(CLASS | SETUP | LOADED, LOADED) && !Has(CLASS | SETUP, LOADED) && Has(CLASS | SETUP, CLASS);
  }

  /** call_load(C) in the example: the walk stops at B, so it runs C's load alone. */
  lemma LoadExampleEvents(uid: nat)
    ensures HooksOk(LoadExampleRecs(), LoadExampleBatches(uid), LoadExampleRank)
    ensures IsClass(LoadExampleRecs(), 3)
    ensures Pending(LoadExampleRecs(), LoadExampleRank, 3, LOADED) == [3]
    ensures LoadEvents(LoadExampleRecs(), LoadExampleBatches(uid), LoadExampleRank, uid, 3) ==
            [Event(Load, 3, 103, LoadExampleRecs()[3].info)]
  {
    var recs := LoadExampleRecs();
    var batches := LoadExampleBatches(uid);
    var rank := LoadExampleRank;
    LoadExampleHooks(uid);
    LoadExamplePending();
    assert MetaMethods(recs, batches, 3) == batches[23] by {
      assert [23][..0] == [];
      assert Flatten(batches, [23]) == Flatten(batches, []) + batches[23];
    }
    assert MatchingImps(batches[23], uid) == [103] by {
      assert batches[23][..0] == [];
    }
    assert AllEvents(recs, batches, Load, uid, [3]) == ClassEvents(recs, batches, Load, uid, 3) by {
      assert [3][..0] == [];
    }
  }

  /**
    * As written: B has no load method yet has LOADED, so call_load(C)
    * stops at B. It runs C's load alone while A, C's grand-superclass,
    * has a load method that has not run, and leaves C LOADED below an A
    * that is not.
    */
  lemma LoadSkipsAncestor(uid: nat)
    ensures HooksOk(LoadExampleRecs(), LoadExampleBatches(uid), LoadExampleRank)
    ensures LoadExampleRecs()[3].superclass == Some(2) && LoadExampleRecs()[2].superclass == Some(1)
    ensures !Defines(MetaMethods(LoadExampleRecs(), LoadExampleBatches(uid), 2), uid) && Has(LoadExampleRecs()[2].info, LOADED)
    ensures Defines(MetaMethods(LoadExampleRecs(), LoadExampleBatches(uid), 1), uid) && !Has(LoadExampleRecs()[1].info, LOADED)
    ensures LoadEvents(LoadExampleRecs(), LoadExampleBatches(uid), LoadExampleRank, uid, 3) ==
            [Event(Load, 3, 103, LoadExampleRecs()[3].info)]
    ensures !LoadedClosed(LoadMarks(LoadExampleRecs(), LoadExampleRank, 3))
  {
    LoadExampleEvents(uid);
    LoadExampleMetas(uid);
    LoadExampleFlags();
    LoadExampleOpen(uid);
  }

  /** B is A's subclass and C is B's; B has LOADED, A has not. */
  lemma LoadExampleFlags()
    ensures LoadExampleRecs()[3].superclass == Some(2) && LoadExampleRecs()[2].superclass == Some(1)
    ensures Has(LoadExampleRecs()[2].info, LOADED) && !Has(LoadExampleRecs()[1].info, LOADED)
  {
    assert Has(CLASS | SETUP | LOADED, LOADED) && !Has(CLASS | SETUP, LOADED);
  }

  /** In the example B's metaclass chain is empty and A's holds the load method. */
  lemma LoadExampleMetas(uid: nat)
    ensures MetaIn(LoadExampleRecs(), LoadExampleBatches(uid), 1) && MetaIn(LoadExampleRecs(), LoadExampleBatches(uid), 2)
    ensures !Defines(MetaMethods(LoadExampleRecs(), LoadExampleBatches(uid), 2), uid)
    ensures Defines(MetaMethods(LoadExampleRecs(), LoadExampleBatches(uid), 1), uid)
  {
    var recs := LoadExampleRecs();
    var batches := LoadExampleBatches(uid);
    assert ChainIn(batches, [21]) && ChainIn(batches, []);
    assert MetaMethods(recs, batches, 2) == [];
    assert MetaMethods(recs, batches, 1) == batches[21] by {
      assert [21][..0] == [];
      assert Flatten(batches, [21]) == Flatten(batches, []) + batches[21];
    }
    assert MetaMethods(recs, batches, 1)[0].sel.uid == uid;
  }

  /** After call_load(C) in the example, B has LOADED while its superclass A does not. */
  lemma LoadExampleOpen(uid: nat)
    ensures SupersRanked(LoadExampleRecs(), LoadExampleRank) && IsClass(LoadExampleRecs(), 3)
    ensures !LoadedClosed(LoadMarks(LoadExampleRecs(), LoadExampleRank, 3))
  {
    var recs := LoadExampleRecs();
    var rank := LoadExampleRank;
    LoadExampleHooks(uid);
    LoadExamplePending();
    var r := LoadMarks(recs, rank, 3);
    assert Members([3]) == {3};
    assert r[2] == recs[2] && r[1] == recs[1];
    assert Has(CLASS | SETUP | LOADED, LOADED) && !Has(CLASS | SETUP, LOADED) && Has(CLASS | SETUP | LOADED, CLASS);
    assert IsClass(r, 2) && Has(r[2].info, LOADED) && r[2].superclass == Some(1) && !Has(r[1].info, LOADED);
  }

  /**
    * call_load keeps LOADED closed under superclasses: the walk marks a
    * class only after its superclass is marked by the same walk or had
    * LOADED already.
    */
  lemma LoadMarksClosed(recs: Records, rank: ClassId -> nat, c: ClassId)
    requires SupersRanked(recs, rank) && IsClass(recs, c) && LoadedClosed(recs)
    ensures LoadedClosed(LoadMarks(recs, rank, c))
  {
    var p := Pending(recs, rank, c, LOADED);
    var r := LoadMarks(recs, rank, c);
    PendingOrdered(recs, rank, c, LOADED);
    forall x: ClassId | IsClass(r, x) && Has(r[x].info, LOADED) && r[x].superclass.Some?
      ensures r[x].superclass.value in r && Has(r[r[x].superclass.value].info, LOADED)
    {
      assert r[x] == recs[x].(info := r[x].info);
      var s := recs[x].superclass.value;
      assert IsClass(recs, x);
      if Has(recs[x].info, LOADED) {
        assert Has(recs[s].info, LOADED);
        assert r[s] == recs[s].(info := r[s].info);
        if s in Members(p) {
        } else {
          assert r[s] == recs[s];
        }
      } else {
        assert x in Members(p);
        var i :| 0 <= i < |p| && p[i] == x;
        if i > 0 {
          assert s == p[i - 1] && s in Members(p);
        } else {
          assert Has(recs[s].info, LOADED);
          if s !in Members(p) {
            assert r[s] == recs[s];
          }
        }
      }
    }
  }

  /**
    * The first pass's step for a linked class without a load method, as
    * intended: call_load on it, which walks up to every ancestor still to
    * load and runs their loads first; an unlinked one is left for a later
    * walk to reach.
    */
  ghost function MarkWithoutLoadFixed(recs: Records, batches: Batches, rank: ClassId -> nat, uid: nat, d: ClassId)
    : (Records, seq<Event>)
    requires HooksOk(recs, batches, rank) && IsClass(recs, d)
  {
    if Has(recs[d].info, SETUP) then (LoadMarks(recs, rank, d), LoadEvents(recs, batches, rank, uid, d)) else (recs, [])
  }

  /** The corrected step keeps LOADED closed under superclasses, and marks a linked class. */
  lemma MarkWithoutLoadFixedClosed(recs: Records, batches: Batches, rank: ClassId -> nat, uid: nat, d: ClassId)
    requires HooksOk(recs, batches, rank) && IsClass(recs, d) && LoadedClosed(recs)
    ensures LoadedClosed(MarkWithoutLoadFixed(recs, batches, rank, uid, d).0)
    ensures Has(recs[d].info, SETUP) ==> Has(MarkWithoutLoadFixed(recs, batches, rank, uid, d).0[d].info, LOADED)
  {
    if Has(recs[d].info, SETUP) {
      LoadMarksClosed(recs, rank, d);
      LoadMarksLoaded(recs, rank, d);
    }
  }
}
