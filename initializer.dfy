/**
  * Running `+initialize`: initialize_class and objc_initialize_class. A
  * class is initialized after its superclasses; DTABLE goes on the class and
  * its metaclass, both dispatch tables are rebuilt, and INITIALIZED is set on
  * both before the class's initialize methods run. Hooks are not executed;
  * each call appends an Event to the runtime's ghost trace.
  */
module Initializer {
  import opened RuntimeTypes
  import opened MethodLists
  import opened Hierarchy
  import opened ObjcRuntime
  import opened Linker
  import opened Dispatch
  import opened Status
  import opened Loader

  /** The flags initialize_class leaves on a record it handles: DTABLE, then INITIALIZED, added to what it had. */
  function InitInfo(info: Info): (r: Info)
    ensures Has(r, DTABLE) && Has(r, INITIALIZED)
    ensures Has(r, CLASS) == Has(info, CLASS) && Has(r, METACLASS) == Has(info, METACLASS)
    ensures Has(r, SETUP) == Has(info, SETUP) && Has(r, LOADED) == Has(info, LOADED)
  {
    SetFlag(SetFlag(info, DTABLE), INITIALIZED)
  }

  /** The records with flag f added on the class c and on its metaclass m. */
  function Flag2(recs: Records, c: ClassId, m: ClassId, f: Info): (r: Records)
    requires c in recs && m in recs && IsFlag(f)
    ensures r.Keys == recs.Keys && Has(r[c].info, f) && Has(r[m].info, f)
    ensures forall x {:trigger r[x]} :: x in recs && x != c && x != m ==> r[x] == recs[x]
  {
    recs[c := recs[c].(info := SetFlag(recs[c].info, f))][m := recs[m].(info := SetFlag(recs[m].info, f))]
  }

  /** The records with InitInfo applied to the class c and to its metaclass m. */
  function Init2(recs: Records, c: ClassId, m: ClassId): (r: Records)
    requires c in recs && m in recs
    ensures r.Keys == recs.Keys && Has(r[c].info, INITIALIZED) && Has(r[m].info, INITIALIZED)
    ensures forall x {:trigger r[x]} :: x in recs && x != c && x != m ==> r[x] == recs[x]
  {
    recs[c := recs[c].(info := InitInfo(recs[c].info))][m := recs[m].(info := InitInfo(recs[m].info))]
  }

  /**
    * The records initialize_class(c) marks: each class of its walk (c and
    * the superclasses above it, up to the first one initialized already)
    * and that class's metaclass.
    */
  ghost function InitSet(recs: Records, rank: ClassId -> nat, c: ClassId): (S: set<ClassId>)
    requires SupersRanked(recs, rank) && IsClass(recs, c)
    ensures Has(recs[c].info, INITIALIZED) ==> S == {}
    ensures !Has(recs[c].info, INITIALIZED) ==> c in S && recs[c].meta in S
  {
    var p := Pending(recs, rank, c, INITIALIZED);
    assert forall x :: x in Members(p) ==> x in recs;
    Members(p) + Metas(recs, Members(p))
  }

  /** The records after initialize_class(c): every record of its walk and their metaclasses gain DTABLE, then INITIALIZED. */
  ghost function InitMarks(recs: Records, rank: ClassId -> nat, c: ClassId): (r: Records)
    requires SupersRanked(recs, rank) && IsClass(recs, c)
    ensures r.Keys == recs.Keys
  {
    var S := InitSet(recs, rank, c);
    Marked(Marked(recs, S, DTABLE), S, INITIALIZED)
  }

  /**
    * The events of initialize_class(c): those of its superclass's call, then
    * c's initialize methods, which run with c's flags already InitInfo.
    */
  ghost function InitEvents(recs: Records, batches: Batches, rank: ClassId -> nat, uid: nat, c: ClassId): seq<Event>
    requires HooksOk(recs, batches, rank) && IsClass(recs, c)
    decreases rank(c)
  {
    if Has(recs[c].info, INITIALIZED) then []
    else
      (if recs[c].superclass.Some? then InitEvents(recs, batches, rank, uid, recs[c].superclass.value) else []) +
      HookEvents(Initialize, c, InitInfo(recs[c].info), MatchingImps(MetaMethods(recs, batches, c), uid))
  }

  /**
    * Every initialize call runs on a class of the walk, with DTABLE and
    * INITIALIZED set on it already (so a message send from the hook cannot
    * start a second initialize of the same class).
    */
  lemma {:induction false} InitOrder(recs: Records, batches: Batches, rank: ClassId -> nat, uid: nat, c: ClassId)
    requires HooksOk(recs, batches, rank) && IsClass(recs, c)
    ensures forall e :: e in InitEvents(recs, batches, rank, uid, c) ==>
              && e.hook == Initialize && Has(e.info, DTABLE) && Has(e.info, INITIALIZED)
              && e.cls in Pending(recs, rank, c, INITIALIZED)
    decreases rank(c)
  {
    if !Has(recs[c].info, INITIALIZED) {
      var p := Pending(recs, rank, c, INITIALIZED);
      var own := HookEvents(Initialize, c, InitInfo(recs[c].info), MatchingImps(MetaMethods(recs, batches, c), uid));
      assert c in p;
      if recs[c].superclass.Some? {
        var s := recs[c].superclass.value;
        InitOrder(recs, batches, rank, uid, s);
        assert p == Pending(recs, rank, s, INITIALIZED) + [c];
        assert InitEvents(recs, batches, rank, uid, c) == InitEvents(recs, batches, rank, uid, s) + own;
      } else {
        assert InitEvents(recs, batches, rank, uid, c) == [] + own;
      }
    }
  }

  /** A class with INITIALIZED: initialize_class does nothing. */
  lemma InitNothing(recs: Records, batches: Batches, rank: ClassId -> nat, uid: nat, c: ClassId)
    requires HooksOk(recs, batches, rank) && IsClass(recs, c) && Has(recs[c].info, INITIALIZED)
    ensures InitMarks(recs, rank, c) == recs && InitEvents(recs, batches, rank, uid, c) == []
  {
  }

  /** Giving records InitInfo keeps the hook walks well defined. */
  lemma InitMarksKeepsHooks(recs: Records, batches: Batches, rank: ClassId -> nat, c: ClassId)
    requires HooksOk(recs, batches, rank) && IsClass(recs, c)
    ensures HooksOk(InitMarks(recs, rank, c), batches, rank) && IsClass(InitMarks(recs, rank, c), c)
  {
    var S := InitSet(recs, rank, c);
    MarkedKeepsHooks(recs, batches, rank, S, DTABLE);
    MarkedKeepsHooks(Marked(recs, S, DTABLE), batches, rank, S, INITIALIZED);
  }

  /** After initialize_class(c), a second initialize_class(c) changes nothing and calls nothing. */
  lemma InitAgain(recs: Records, batches: Batches, rank: ClassId -> nat, uid: nat, c: ClassId)
    requires HooksOk(recs, batches, rank) && IsClass(recs, c)
    ensures var r := InitMarks(recs, rank, c);
            && HooksOk(r, batches, rank) && IsClass(r, c) && Has(r[c].info, INITIALIZED)
            && InitMarks(r, rank, c) == r && InitEvents(r, batches, rank, uid, c) == []
  {
    InitMarksKeepsHooks(recs, batches, rank, c);
    var r := InitMarks(recs, rank, c);
    if !Has(recs[c].info, INITIALIZED) {
      assert c in InitSet(recs, rank, c);
    }
    InitNothing(r, batches, rank, uid, c);
  }

  /** Adding two records to a walk's set marks those two on top of the smaller walk's records. */
  lemma MarkTwicePlus(recs: Records, S: set<ClassId>, c: ClassId, m: ClassId)
    requires c in recs && m in recs && c != m && c !in S && m !in S
    ensures var r1 := Marked(Marked(recs, S, DTABLE), S, INITIALIZED);
            && r1[c] == recs[c] && r1[m] == recs[m]
            && Marked(Marked(recs, S + {c, m}, DTABLE), S + {c, m}, INITIALIZED) ==
               r1[c := r1[c].(info := InitInfo(r1[c].info))][m := r1[m].(info := InitInfo(r1[m].info))]
  {
  }

  /**
    * The walk's set grows by one class and its metaclass per step: neither is
    * in the superclass's walk (the walk holds classes of lower rank and
    * their metaclasses, and metaclasses are distinct).
    */
  lemma InitSetStep(recs: Records, rank: ClassId -> nat, c: ClassId, ps: seq<ClassId>)
    requires SupersRanked(recs, rank) && IsClass(recs, c) && recs[c].meta in recs
    requires Pending(recs, rank, c, INITIALIZED) == ps + [c]
    requires forall y :: y in Members(ps) ==> y in recs
    ensures InitSet(recs, rank, c) == (Members(ps) + Metas(recs, Members(ps))) + {c, recs[c].meta}
  {
    MembersSnoc(ps, c);
    MetasPlus(recs, Members(ps), c);
  }

  /** A class and its metaclass are neither a class of lower rank nor that class's metaclass. */
  lemma WalkAvoids(names: Names, recs: Records, reg: set<ClassId>, rank: ClassId -> nat, c: ClassId, ps: seq<ClassId>)
    requires Ok(names, recs, reg, rank) && IsClass(recs, c)
    requires forall i :: 0 <= i < |ps| ==> IsClass(recs, ps[i]) && rank(ps[i]) < rank(c)
    ensures recs[c].meta in recs && recs[c].meta != c
    ensures forall y :: y in Members(ps) ==>
              y in recs && y != c && y != recs[c].meta && recs[y].meta != c && recs[y].meta != recs[c].meta
  {
    assert RecOk(recs, reg, rank, c) && ClassOk(recs, reg, rank, c);
    forall y | y in Members(ps)
      ensures y in recs && y != c && y != recs[c].meta && recs[y].meta != c && recs[y].meta != recs[c].meta
    {
      assert y in ps;
      assert RecOk(recs, reg, rank, y) && ClassOk(recs, reg, rank, y);
      assert MetaOf(recs, y) != MetaOf(recs, c);
    }
  }

  lemma MetasPlus(recs: Records, L: set<ClassId>, x: ClassId)
    requires x in recs && forall y {:trigger y in L} :: y in L ==> y in recs
    ensures Metas(recs, L + {x}) == Metas(recs, L) + {recs[x].meta}
  {
  }

  lemma MetasNone(recs: Records)
    ensures Metas(recs, {}) == {}
  {
  }

  lemma MarkedNone(recs: Records, f: Info)
    requires IsFlag(f)
    ensures Marked(recs, {}, f) == recs
  {
  }

  /**
    * One step of initialize_class's walk, on values: when c lacks
    * INITIALIZED, its records are its superclass's walk's records with c and
    * its metaclass m given InitInfo.
    */
  lemma InitStep(recs: Records, rank: ClassId -> nat, c: ClassId, m: ClassId, ps: seq<ClassId>, r1: Records)
    requires SupersRanked(recs, rank) && IsClass(recs, c) && !Has(recs[c].info, INITIALIZED)
    requires m == recs[c].meta && m in recs && m != c
    requires recs[c].superclass.Some? ==> ps == Pending(recs, rank, recs[c].superclass.value, INITIALIZED)
    requires recs[c].superclass.None? ==> ps == []
    requires forall y :: y in Members(ps) ==> y in recs && y != c && y != m && recs[y].meta != c && recs[y].meta != m
    requires recs[c].superclass.Some? ==> r1 == InitMarks(recs, rank, recs[c].superclass.value)
    requires recs[c].superclass.None? ==> r1 == recs
    ensures c in r1 && m in r1 && r1[c] == recs[c] && r1[m] == recs[m]
    ensures InitMarks(recs, rank, c) == Init2(r1, c, m)
    ensures recs[c].superclass.Some? ==> InitSet(recs, rank, c) == InitSet(recs, rank, recs[c].superclass.value) + {c, m}
    ensures recs[c].superclass.None? ==> InitSet(recs, rank, c) == {c, m}
  {
    if recs[c].superclass.Some? {
      InitStepSub(recs, rank, c, m, ps, r1);
    } else {
      InitStepRoot(recs, rank, c, m, r1);
    }
  }

  /** InitStep for a class with a superclass. */
  lemma InitStepSub(recs: Records, rank: ClassId -> nat, c: ClassId, m: ClassId, ps: seq<ClassId>, r1: Records)
    requires SupersRanked(recs, rank) && IsClass(recs, c) && !Has(recs[c].info, INITIALIZED)
    requires m == recs[c].meta && m in recs && m != c && recs[c].superclass.Some?
    requires ps == Pending(recs, rank, recs[c].superclass.value, INITIALIZED)
    requires forall y :: y in Members(ps) ==> y in recs && y != c && y != m && recs[y].meta != c && recs[y].meta != m
    requires r1 == InitMarks(recs, rank, recs[c].superclass.value)
    ensures c in r1 && m in r1 && r1[c] == recs[c] && r1[m] == recs[m]
    ensures InitMarks(recs, rank, c) == Init2(r1, c, m)
    ensures InitSet(recs, rank, c) == InitSet(recs, rank, recs[c].superclass.value) + {c, m}
  {
    assert Pending(recs, rank, c, INITIALIZED) == ps + [c];
    var S0 := Members(ps) + Metas(recs, Members(ps));
    assert S0 == InitSet(recs, rank, recs[c].superclass.value);
    InitSetStep(recs, rank, c, ps);
    MarkTwicePlus(recs, S0, c, m);
  }

  /** InitStep for a root class. */
  lemma InitStepRoot(recs: Records, rank: ClassId -> nat, c: ClassId, m: ClassId, r1: Records)
    requires SupersRanked(recs, rank) && IsClass(recs, c) && !Has(recs[c].info, INITIALIZED)
    requires m == recs[c].meta && m in recs && m != c && recs[c].superclass.None? && r1 == recs
    ensures InitMarks(recs, rank, c) == Init2(r1, c, m)
    ensures InitSet(recs, rank, c) == {c, m}
  {
    var S := InitSet(recs, rank, c);
    assert S == {c, m} by {
      assert Pending(recs, rank, c, INITIALIZED) == [c];
      MembersSnoc([], c);
      assert Members([]) == {};
      MetasPlus(recs, {}, c);
      MetasNone(recs);
    }
    MarkTwicePlus(recs, {}, c, m);
    MarkedNone(recs, DTABLE);
    MarkedNone(recs, INITIALIZED);
    assert {} + {c, m} == S;
  }

  /** The walk's records keep private tables: the superclass's walk kept them, and c and its metaclass now have their own. */
  lemma InitPrivateStep(recs: Records, rank: ClassId -> nat, c: ClassId, dt1: map<ClassId, DtId>, dt: map<ClassId, DtId>)
    requires SupersRanked(recs, rank) && IsClass(recs, c) && !Has(recs[c].info, INITIALIZED)
    requires recs[c].superclass.Some? ==>
               && InitSet(recs, rank, c) == InitSet(recs, rank, recs[c].superclass.value) + {c, recs[c].meta}
               && forall x :: x in InitSet(recs, rank, recs[c].superclass.value) ==> x in dt1 && dt1[x] != EmptyDt
    requires recs[c].superclass.None? ==> InitSet(recs, rank, c) == {c, recs[c].meta}
    requires PrivateKept(dt1, dt)
    requires c in dt && dt[c] != EmptyDt && recs[c].meta in dt && dt[recs[c].meta] != EmptyDt
    ensures forall x :: x in InitSet(recs, rank, c) ==> x in dt && dt[x] != EmptyDt
  {
    if recs[c].superclass.Some? {
      PrivateGrow(InitSet(recs, rank, recs[c].superclass.value), InitSet(recs, rank, c), c, recs[c].meta, dt1, dt);
    } else {
      PrivateGrow({}, InitSet(recs, rank, c), c, recs[c].meta, dt1, dt);
    }
  }

  /** The trace half of a step of initialize_class: the superclass's events, then c's own, seen on records r1 that kept c and its metaclass. */
  lemma InitTraceStep(recs: Records, batches: Batches, rank: ClassId -> nat, uid: nat, c: ClassId,
                      r1: Records, before: seq<Event>, t0: seq<Event>, t1: seq<Event>, t: seq<Event>)
    requires HooksOk(recs, batches, rank) && IsClass(recs, c) && !Has(recs[c].info, INITIALIZED)
    requires recs[c].meta in recs && c in r1 && recs[c].meta in r1 && r1[c] == recs[c] && r1[recs[c].meta] == recs[recs[c].meta] && MetaIn(r1, batches, c)
    requires recs[c].superclass.Some? ==> before == InitEvents(recs, batches, rank, uid, recs[c].superclass.value) && t1 == t0 + before
    requires recs[c].superclass.None? ==> before == [] && t1 == t0
    requires t == t1 + HookEvents(Initialize, c, InitInfo(r1[c].info), MatchingImps(MetaMethods(r1, batches, c), uid))
    ensures t == t0 + InitEvents(recs, batches, rank, uid, c)
  {
    assert MetaMethods(r1, batches, c) == MetaMethods(recs, batches, c);
    var own := HookEvents(Initialize, c, InitInfo(recs[c].info), MatchingImps(MetaMethods(recs, batches, c), uid));
    if recs[c].superclass.None? {
      assert t0 + before == t0;
    }
    InitEventsStep(recs, batches, rank, uid, c, before, own, t0, t1, t);
  }

  // ---------------------------------------------------------------------
  // initialize_class and objc_initialize_class on the runtime

  /** Every private dispatch table stays where it was, and no record gains or loses a table. */
  ghost predicate PrivateKept(d0: map<ClassId, DtId>, d: map<ClassId, DtId>) {
    d.Keys == d0.Keys && forall y {:trigger d[y]} :: y in d0 && d0[y] != EmptyDt ==> d[y] == d0[y]
  }

  /**
    * st is what initialize_class's two objc_update_dtable calls make of
    * st0 on records r2: the class c's tables, then its metaclass m's.
    */
  ghost predicate BothBuilt(r2: Records, batches: Batches, cats: map<string, seq<Category>>, rank: ClassId -> nat, bound: nat,
                            st0: Tables, st: Tables, c: ClassId, m: ClassId) {
    && c in r2 && m in r2 && ListsRanked(r2, rank, bound) && TargetsOk(r2, st0.dtableOf.Keys)
    && TablesOk(r2, st0) && ChainsOk(r2, batches, cats)
    && st == Update(r2, batches, cats, rank, bound, Update(r2, batches, cats, rank, bound, st0, c), m)
  }

  /**
    * The tables after initialize_class's two objc_update_dtable calls on
    * records r2: the class c's, then its metaclass m's (st0 unchanged when
    * the records do not allow a rebuild).
    */
  ghost function BuildBoth(r2: Records, batches: Batches, cats: map<string, seq<Category>>, rank: ClassId -> nat, bound: nat,
                           st0: Tables, c: ClassId, m: ClassId): (r: Tables)
    ensures r.dtableOf.Keys == st0.dtableOf.Keys
  {
    if c in r2 && m in r2 && ListsRanked(r2, rank, bound) && TargetsOk(r2, st0.dtableOf.Keys) && TablesOk(r2, st0) && ChainsOk(r2, batches, cats)
    then Update(r2, batches, cats, rank, bound, Update(r2, batches, cats, rank, bound, st0, c), m)
    else st0
  }

  /** The two rebuilds BothBuilt states are the ones BuildBoth computes. */
  lemma BothBuiltIs(r2: Records, batches: Batches, cats: map<string, seq<Category>>, rank: ClassId -> nat, bound: nat,
                    st0: Tables, st: Tables, c: ClassId, m: ClassId)
    requires BothBuilt(r2, batches, cats, rank, bound, st0, st, c, m)
    ensures st == BuildBoth(r2, batches, cats, rank, bound, st0, c, m)
  {
  }

  /**
    * The tables after initialize_class(c) from records recs and tables st:
    * the superclass's walk first, then, on the records that walk left with
    * DTABLE added on c and its metaclass, c's table and its metaclass's.
    */
  ghost function InitTables(recs: Records, batches: Batches, cats: map<string, seq<Category>>, rank: ClassId -> nat, bound: nat,
                            st: Tables, c: ClassId): (r: Tables)
    requires SupersRanked(recs, rank) && IsClass(recs, c)
    ensures r.dtableOf.Keys == st.dtableOf.Keys
    decreases rank(c)
  {
    if Has(recs[c].info, INITIALIZED) then st
    else
      var m := recs[c].meta;
      var r1 := if recs[c].superclass.Some? then InitMarks(recs, rank, recs[c].superclass.value) else recs;
      var st1 := if recs[c].superclass.Some? then InitTables(recs, batches, cats, rank, bound, st, recs[c].superclass.value) else st;
      if m in r1 then BuildBoth(Flag2(r1, c, m, DTABLE), batches, cats, rank, bound, st1, c, m) else st1
  }

  /** One step of InitTables: when c lacks INITIALIZED, its superclass's tables st1 on records r1, then c's and its metaclass's. */
  lemma InitTablesStep(recs: Records, batches: Batches, cats: map<string, seq<Category>>, rank: ClassId -> nat, bound: nat,
                       st: Tables, c: ClassId, m: ClassId, r1: Records, st1: Tables)
    requires SupersRanked(recs, rank) && IsClass(recs, c) && !Has(recs[c].info, INITIALIZED) && m == recs[c].meta
    requires recs[c].superclass.Some? ==>
               r1 == InitMarks(recs, rank, recs[c].superclass.value) && st1 == InitTables(recs, batches, cats, rank, bound, st, recs[c].superclass.value)
    requires recs[c].superclass.None? ==> r1 == recs && st1 == st
    requires c in r1 && m in r1
    ensures InitTables(recs, batches, cats, rank, bound, st, c) == BuildBoth(Flag2(r1, c, m, DTABLE), batches, cats, rank, bound, st1, c, m)
  {
  }

  /** After initialize_class(c), a second initialize_class(c) rebuilds no table. */
  lemma InitTablesAgain(recs: Records, batches: Batches, cats: map<string, seq<Category>>, rank: ClassId -> nat, bound: nat,
                        st: Tables, c: ClassId)
    requires HooksOk(recs, batches, rank) && IsClass(recs, c)
    ensures SupersRanked(InitMarks(recs, rank, c), rank) && IsClass(InitMarks(recs, rank, c), c)
    ensures InitTables(InitMarks(recs, rank, c), batches, cats, rank, bound, st, c) == st
  {
    InitAgain(recs, batches, rank, 0, c);
  }

  /** One objc_update_dtable call on a valid runtime: x ends with a private table and no private table moves. */
  method UpdateKeeping(rt: Runtime, x: ClassId)
    requires rt.Valid() && x in rt.recs && Has(rt.recs[x].info, DTABLE)
    requires ListsRanked(rt.recs, rt.rank, rt.bound) && TargetsOk(rt.recs, rt.dtableOf.Keys)
    requires TablesOk(rt.recs, TablesOf(rt)) && ChainsOk(rt.recs, rt.batches, rt.cats)
    modifies rt`dtableOf, rt`dtables, rt`nextDt
    ensures rt.Valid() && rt.recs == old(rt.recs) && rt.trace == old(rt.trace)
    ensures TablesOf(rt) == old(Update(rt.recs, rt.batches, rt.cats, rt.rank, rt.bound, TablesOf(rt), x))
    ensures PrivateKept(old(rt.dtableOf), rt.dtableOf)
    ensures x in rt.dtableOf && rt.dtableOf[x] != EmptyDt
  {
    ghost var recs, batches, cats, rank, bound, st0 := rt.recs, rt.batches, rt.cats, rt.rank, rt.bound, TablesOf(rt);
    label Start:
    UpdateDtable(rt, x);
    UpdateGivesPrivate(recs, batches, cats, rank, bound, st0, x);
    forall y | y in st0.dtableOf && st0.dtableOf[y] != EmptyDt
      ensures y in rt.dtableOf && rt.dtableOf[y] == st0.dtableOf[y]
    {
      UpdateKeepsPrivate(recs, batches, cats, rank, bound, st0, x, y);
    }
    TablesKeepValid@Start(rt);
  }

  /** Private tables on S0, kept, plus private tables on c and m give private tables on S0 + {c, m}. */
  lemma PrivateGrow(S0: set<ClassId>, S: set<ClassId>, c: ClassId, m: ClassId, d0: map<ClassId, DtId>, d: map<ClassId, DtId>)
    requires S == S0 + {c, m} && PrivateKept(d0, d)
    requires forall x :: x in S0 ==> x in d0 && d0[x] != EmptyDt
    requires c in d && d[c] != EmptyDt && m in d && d[m] != EmptyDt
    ensures forall x :: x in S ==> x in d && d[x] != EmptyDt
  {
  }

  /** The events of initialize_class(c) are those of its superclass's call, then its own. */
  lemma InitEventsStep(recs: Records, batches: Batches, rank: ClassId -> nat, uid: nat, c: ClassId,
                       before: seq<Event>, own: seq<Event>, t0: seq<Event>, t1: seq<Event>, t: seq<Event>)
    requires HooksOk(recs, batches, rank) && IsClass(recs, c) && !Has(recs[c].info, INITIALIZED)
    requires recs[c].superclass.Some? ==> before == InitEvents(recs, batches, rank, uid, recs[c].superclass.value)
    requires recs[c].superclass.None? ==> before == []
    requires own == HookEvents(Initialize, c, InitInfo(recs[c].info), MatchingImps(MetaMethods(recs, batches, c), uid))
    requires t1 == t0 + before && t == t1 + own
    ensures t == t0 + InitEvents(recs, batches, rank, uid, c)
  {
    Assoc(t0, before, own);
  }

  /** The two objc_update_dtable calls of initialize_class: the class's table, then its metaclass's. */
  method BuildBothTables(rt: Runtime, c: ClassId, m: ClassId)
    requires rt.Valid() && c in rt.recs && m in rt.recs && Has(rt.recs[c].info, DTABLE) && Has(rt.recs[m].info, DTABLE)
    modifies rt`dtableOf, rt`dtables, rt`nextDt
    ensures rt.Valid() && rt.batches == old(rt.batches) && rt.recs == old(rt.recs) && rt.trace == old(rt.trace)
    ensures BothBuilt(rt.recs, rt.batches, rt.cats, rt.rank, rt.bound, old(TablesOf(rt)), TablesOf(rt), c, m)
    ensures PrivateKept(old(rt.dtableOf), rt.dtableOf)
    ensures c in rt.dtableOf && rt.dtableOf[c] != EmptyDt && m in rt.dtableOf && rt.dtableOf[m] != EmptyDt
  {
    ghost var dt0, st0 := rt.dtableOf, TablesOf(rt);
    ValidDispatch(rt);
    UpdateKeeping(rt, c);
    ghost var dt1, st1 := rt.dtableOf, TablesOf(rt);
    UpdateKeeping(rt, m);
    PrivateKeptTrans(dt0, dt1, rt.dtableOf);
    BothBuiltIntro(rt.recs, rt.batches, rt.cats, rt.rank, rt.bound, st0, st1, TablesOf(rt), c, m);
  }

  lemma BothBuiltIntro(r2: Records, batches: Batches, cats: map<string, seq<Category>>, rank: ClassId -> nat, bound: nat,
                       st0: Tables, st1: Tables, st: Tables, c: ClassId, m: ClassId)
    requires c in r2 && m in r2 && ListsRanked(r2, rank, bound) && TargetsOk(r2, st0.dtableOf.Keys)
    requires TablesOk(r2, st0) && ChainsOk(r2, batches, cats)
    requires st1 == Update(r2, batches, cats, rank, bound, st0, c)
    requires TargetsOk(r2, st1.dtableOf.Keys) && TablesOk(r2, st1)
    requires st == Update(r2, batches, cats, rank, bound, st1, m)
    ensures BothBuilt(r2, batches, cats, rank, bound, st0, st, c, m)
  {
  }

  lemma PrivateKeptTrans(d0: map<ClassId, DtId>, d1: map<ClassId, DtId>, d2: map<ClassId, DtId>)
    requires PrivateKept(d0, d1) && PrivateKept(d1, d2)
    ensures PrivateKept(d0, d2)
  {
    forall y | y in d0 && d0[y] != EmptyDt
      ensures d2[y] == d0[y]
    {
      assert d1[y] == d0[y];
    }
  }

  /** Two `|=` of the same flag, on the class and on its metaclass. */
  method SetInfoBoth(rt: Runtime, c: ClassId, m: ClassId, f: Info)
    requires c in rt.recs && m in rt.recs && c != m && rt.Valid()
    requires f == INITIALIZED || (f == DTABLE && Has(rt.recs[c].info, SETUP) && Has(rt.recs[m].info, SETUP))
    modifies rt`recs
    ensures rt.recs == Flag2(old(rt.recs), c, m, f)
    ensures rt.Valid() && rt.batches == old(rt.batches) && rt.trace == old(rt.trace) && TablesOf(rt) == old(TablesOf(rt))
  {
    SetInfo(rt, c, f);
    SetInfo(rt, m, f);
  }

  /** DTABLE on both records, then INITIALIZED on both, is InitInfo on both. */
  lemma InitBothSteps(recs: Records, c: ClassId, m: ClassId)
    requires c in recs && m in recs && c != m
    ensures Flag2(Flag2(recs, c, m, DTABLE), c, m, INITIALIZED) == Init2(recs, c, m)
  {
    var r2 := Flag2(recs, c, m, DTABLE);
    assert r2[c] == recs[c].(info := SetFlag(recs[c].info, DTABLE)) && r2[m] == recs[m].(info := SetFlag(recs[m].info, DTABLE));
  }

  /** A linked class's metaclass is another record, linked too. */
  lemma LinkedMeta(names: Names, recs: Records, reg: set<ClassId>, rank: ClassId -> nat, c: ClassId)
    requires Ok(names, recs, reg, rank) && IsClass(recs, c) && Has(recs[c].info, SETUP)
    ensures recs[c].meta in recs && recs[c].meta != c && Has(recs[recs[c].meta].info, SETUP)
  {
    assert RecOk(recs, reg, rank, c) && ClassOk(recs, reg, rank, c);
  }

  /**
    * DTABLE on the class and its metaclass, then both tables built on the
    * records with DTABLE set.
    */
  method MarkAndBuild(rt: Runtime, c: ClassId, m: ClassId)
    requires rt.Valid() && IsClass(rt.recs, c) && Has(rt.recs[c].info, SETUP)
    requires m == rt.recs[c].meta
    modifies rt`recs, rt`dtableOf, rt`dtables, rt`nextDt
    ensures rt.Valid() && rt.batches == old(rt.batches) && rt.trace == old(rt.trace)
    ensures m != c && m in old(rt.recs) && rt.recs == Flag2(old(rt.recs), c, m, DTABLE)
    ensures TablesOf(rt) == BuildBoth(rt.recs, rt.batches, rt.cats, rt.rank, rt.bound, old(TablesOf(rt)), c, m)
    ensures PrivateKept(old(rt.dtableOf), rt.dtableOf)
    ensures c in rt.dtableOf && rt.dtableOf[c] != EmptyDt && m in rt.dtableOf && rt.dtableOf[m] != EmptyDt
  {
    LinkedMeta(rt.Names(), rt.recs, rt.Registered(), rt.rank, c);
    SetInfoBoth(rt, c, m, DTABLE);
    ghost var st0 := TablesOf(rt);
    BuildBothTables(rt, c, m);
    BothBuiltIs(rt.recs, rt.batches, rt.cats, rt.rank, rt.bound, st0, TablesOf(rt), c, m);
  }

  /** INITIALIZED on the class and its metaclass, then the class's initialize methods. */
  method MarkAndRun(rt: Runtime, c: ClassId, m: ClassId)
    requires rt.Valid() && IsClass(rt.recs, c) && MetaIn(rt.recs, rt.batches, c)
    requires m == rt.recs[c].meta && m != c
    modifies rt`recs, rt`trace
    ensures rt.Valid() && rt.batches == old(rt.batches) && TablesOf(rt) == old(TablesOf(rt))
    ensures rt.recs == Flag2(old(rt.recs), c, m, INITIALIZED)
    ensures rt.trace == old(rt.trace) + HookEvents(Initialize, c, SetFlag(old(rt.recs[c].info), INITIALIZED),
                                                   MatchingImps(MetaMethods(old(rt.recs), rt.batches, c), rt.initializeUid))
  {
    ghost var recs0, uid := rt.recs, rt.initializeUid;
    SetInfoBoth(rt, c, m, INITIALIZED);
    assert rt.recs[c].info == SetFlag(recs0[c].info, INITIALIZED);
    assert MetaMethods(rt.recs, rt.batches, c) == MetaMethods(recs0, rt.batches, c);
    CallMethod(rt, c, Initialize);
    assert HookUid(rt, Initialize) == uid;
  }

  /**
    * The part of initialize_class after the superclass is done: DTABLE on
    * the class and its metaclass, both tables built, INITIALIZED on both,
    * then the class's initialize methods.
    */
  method InitializeOwn(rt: Runtime, c: ClassId, m: ClassId)
    requires rt.Valid() && IsClass(rt.recs, c) && Has(rt.recs[c].info, SETUP) && MetaIn(rt.recs, rt.batches, c)
    requires m == rt.recs[c].meta
    modifies rt`recs, rt`trace, rt`dtableOf, rt`dtables, rt`nextDt
    ensures rt.Valid() && rt.batches == old(rt.batches) && rt.cats == old(rt.cats)
    ensures m != c && m in old(rt.recs) && rt.recs == Init2(old(rt.recs), c, m)
    ensures rt.trace == old(rt.trace) + HookEvents(Initialize, c, InitInfo(old(rt.recs[c].info)),
                                                   MatchingImps(MetaMethods(old(rt.recs), rt.batches, c), rt.initializeUid))
    ensures TablesOf(rt) == BuildBoth(Flag2(old(rt.recs), c, m, DTABLE), old(rt.batches), old(rt.cats), rt.rank, rt.bound, old(TablesOf(rt)), c, m)
    ensures PrivateKept(old(rt.dtableOf), rt.dtableOf)
    ensures c in rt.dtableOf && rt.dtableOf[c] != EmptyDt && m in rt.dtableOf && rt.dtableOf[m] != EmptyDt
  {
    ghost var recs0 := rt.recs;
    MarkAndBuild(rt, c, m);
    ghost var r2 := rt.recs;
    assert MetaMethods(r2, rt.batches, c) == MetaMethods(recs0, rt.batches, c);
    MarkAndRun(rt, c, m);
    InitBothSteps(recs0, c, m);
  }

  /**
    * initialize_class: nothing when c has INITIALIZED; otherwise its
    * superclass first, then c and its metaclass. Afterwards the records are
    * InitMarks, the trace has grown by InitEvents, every class and
    * metaclass of the walk has a private dispatch table, and no private
    * table moved.
    */
  method InitializeClass(rt: Runtime, c: ClassId)
    requires rt.Valid() && HooksOk(rt.recs, rt.batches, rt.rank) && IsClass(rt.recs, c) && Has(rt.recs[c].info, SETUP)
    modifies rt`recs, rt`trace, rt`dtableOf, rt`dtables, rt`nextDt
    ensures rt.Valid() && rt.batches == old(rt.batches) && rt.cats == old(rt.cats)
    ensures rt.recs == InitMarks(old(rt.recs), rt.rank, c)
    ensures rt.trace == old(rt.trace) + InitEvents(old(rt.recs), rt.batches, rt.rank, rt.initializeUid, c)
    ensures TablesOf(rt) == InitTables(old(rt.recs), old(rt.batches), old(rt.cats), rt.rank, rt.bound, old(TablesOf(rt)), c)
    ensures PrivateKept(old(rt.dtableOf), rt.dtableOf)
    ensures forall x :: x in InitSet(old(rt.recs), rt.rank, c) ==> x in rt.dtableOf && rt.dtableOf[x] != EmptyDt
    decreases rt.rank(c)
  {
    if Has(rt.recs[c].info, INITIALIZED) {
      InitNothing(rt.recs, rt.batches, rt.rank, rt.initializeUid, c);
      return;
    }
    ghost var recs0, t0, dt0, st0 := rt.recs, rt.trace, rt.dtableOf, TablesOf(rt);
    ghost var batches, cats, rank, bound, uid := rt.batches, rt.cats, rt.rank, rt.bound, rt.initializeUid;
    var m := rt.recs[c].meta;
    assert RecOk(recs0, rt.Registered(), rank, c) && ClassOk(recs0, rt.Registered(), rank, c);
    ghost var ps: seq<ClassId> := [];
    ghost var before: seq<Event> := [];
    if rt.recs[c].superclass.Some? {
      ps := Pending(recs0, rank, rt.recs[c].superclass.value, INITIALIZED);
    }
    WalkAvoids(rt.Names(), recs0, rt.Registered(), rank, c, ps);
    if rt.recs[c].superclass.Some? {
      var s := rt.recs[c].superclass.value;
      before := InitEvents(recs0, batches, rank, uid, s);
      InitializeClass(rt, s);
    }
    InitializeTail(rt, c, m, recs0, ps, before, t0, dt0, st0, batches, cats);
  }

  /** initialize_class(c) once its superclass's call (if any) is done: the class and its metaclass, and the facts about the whole walk. */
  method InitializeTail(rt: Runtime, c: ClassId, m: ClassId, ghost recs0: Records, ghost ps: seq<ClassId>, ghost before: seq<Event>,
                        ghost t0: seq<Event>, ghost dt0: map<ClassId, DtId>, ghost st0: Tables,
                        ghost batches: Batches, ghost cats: map<string, seq<Category>>)
    requires rt.Valid() && rt.batches == batches && rt.cats == cats && HooksOk(recs0, batches, rt.rank) && IsClass(recs0, c) && !Has(recs0[c].info, INITIALIZED)
    requires Has(recs0[c].info, SETUP) && m == recs0[c].meta && m in recs0 && m != c
    requires forall y :: y in Members(ps) ==> y in recs0 && y != c && y != m && recs0[y].meta != c && recs0[y].meta != m
    requires recs0[c].superclass.Some? ==>
               && ps == Pending(recs0, rt.rank, recs0[c].superclass.value, INITIALIZED)
               && rt.recs == InitMarks(recs0, rt.rank, recs0[c].superclass.value)
               && before == InitEvents(recs0, batches, rt.rank, rt.initializeUid, recs0[c].superclass.value)
               && rt.trace == t0 + before
               && PrivateKept(dt0, rt.dtableOf)
               && TablesOf(rt) == InitTables(recs0, batches, cats, rt.rank, rt.bound, st0, recs0[c].superclass.value)
               && forall x :: x in InitSet(recs0, rt.rank, recs0[c].superclass.value) ==> x in rt.dtableOf && rt.dtableOf[x] != EmptyDt
    requires recs0[c].superclass.None? ==> ps == [] && rt.recs == recs0 && before == [] && rt.trace == t0 && rt.dtableOf == dt0 && TablesOf(rt) == st0
    modifies rt`recs, rt`trace, rt`dtableOf, rt`dtables, rt`nextDt
    ensures rt.Valid() && rt.batches == batches && rt.cats == cats
    ensures rt.recs == InitMarks(recs0, rt.rank, c)
    ensures rt.trace == t0 + InitEvents(recs0, rt.batches, rt.rank, rt.initializeUid, c)
    ensures TablesOf(rt) == InitTables(recs0, batches, cats, rt.rank, rt.bound, st0, c)
    ensures PrivateKept(dt0, rt.dtableOf)
    ensures forall x :: x in InitSet(recs0, rt.rank, c) ==> x in rt.dtableOf && rt.dtableOf[x] != EmptyDt
  {
    ghost var r1, t1, dt1, st1 := rt.recs, rt.trace, rt.dtableOf, TablesOf(rt);
    InitStep(recs0, rt.rank, c, m, ps, r1);
    InitializeOwn(rt, c, m);
    InitTraceStep(recs0, rt.batches, rt.rank, rt.initializeUid, c, r1, before, t0, t1, rt.trace);
    InitPrivateStep(recs0, rt.rank, c, dt1, rt.dtableOf);
    if recs0[c].superclass.Some? {
      PrivateKeptTrans(dt0, dt1, rt.dtableOf);
    }
    InitTablesStep(recs0, batches, cats, rt.rank, rt.bound, st0, c, m, r1, st1);
  }

  /**
    * What objc_initialize_class(c) leaves: the records, the hook events it
    * appends and the dispatch tables. Nothing changes when c is initialized or
    * cannot be linked; otherwise initialize_class runs on the set-up records.
    */
  ghost function ObjcInit(names: Names, recs: Records, reg: set<ClassId>, rank: ClassId -> nat, batches: Batches,
                          cats: map<string, seq<Category>>, bound: nat, uid: nat, st: Tables, c: ClassId): (Records, seq<Event>, Tables)
  {
    if !(Ok(names, recs, reg, rank) && IsClass(recs, c) && c in reg) || Has(recs[c].info, INITIALIZED) || !Linkable(names, recs, reg, rank, c)
    then (recs, [], st)
    else
      var r := Setup(names, recs, reg, rank, c);
      if HooksOk(r, batches, rank) && IsClass(r, c)
      then (InitMarks(r, rank, c), InitEvents(r, batches, rank, uid, c), InitTables(r, batches, cats, rank, bound, st, c))
      else (recs, [], st)
  }

  /** After objc_initialize_class(c), c is INITIALIZED exactly when it was already or could be linked; otherwise nothing changed. */
  lemma ObjcInitInitializes(names: Names, recs: Records, reg: set<ClassId>, rank: ClassId -> nat, batches: Batches,
                            cats: map<string, seq<Category>>, bound: nat, uid: nat, st: Tables, c: ClassId)
    requires Ok(names, recs, reg, rank) && RecChainsIn(recs, batches) && IsClass(recs, c) && c in reg
    ensures IsClass(ObjcInit(names, recs, reg, rank, batches, cats, bound, uid, st, c).0, c)
    ensures Has(ObjcInit(names, recs, reg, rank, batches, cats, bound, uid, st, c).0[c].info, INITIALIZED) <==>
              Has(recs[c].info, INITIALIZED) || Linkable(names, recs, reg, rank, c)
    ensures !Linkable(names, recs, reg, rank, c) ==> ObjcInit(names, recs, reg, rank, batches, cats, bound, uid, st, c) == (recs, [], st)
  {
    if !Has(recs[c].info, INITIALIZED) && Linkable(names, recs, reg, rank, c) {
      var r := Setup(names, recs, reg, rank, c);
      SetupGrows(names, recs, reg, rank, c);
      GrowsChains(names, reg, rank, recs, r, batches);
      OkHooks(names, r, reg, rank, batches);
      InitKeepsClasses(names, recs, reg, rank, c);
      InitAgain(r, batches, rank, uid, c);
    }
  }

  /** A second objc_initialize_class(c) changes no record or table and runs no hook. */
  lemma ObjcInitAgain(names: Names, recs: Records, reg: set<ClassId>, rank: ClassId -> nat, batches: Batches,
                      cats: map<string, seq<Category>>, bound: nat, uid: nat, st: Tables, c: ClassId)
    ensures var r := ObjcInit(names, recs, reg, rank, batches, cats, bound, uid, st, c);
            ObjcInit(names, r.0, reg, rank, batches, cats, bound, uid, r.2, c) == (r.0, [], r.2)
  {
    if Ok(names, recs, reg, rank) && IsClass(recs, c) && c in reg && !Has(recs[c].info, INITIALIZED) && Linkable(names, recs, reg, rank, c) {
      var r := Setup(names, recs, reg, rank, c);
      if HooksOk(r, batches, rank) && IsClass(r, c) {
        InitAgain(r, batches, rank, uid, c);
      }
    }
  }

  /**
    * objc_initialize_class: nothing when c has INITIALIZED; otherwise
    * setup_class, and when c could not be linked nothing else; otherwise
    * initialize_class on the linked records.
    */
  method ObjcInitializeClass(rt: Runtime, c: ClassId)
    requires rt.Valid() && IsClass(rt.recs, c) && c in rt.Registered()
    modifies rt`recs, rt`trace, rt`dtableOf, rt`dtables, rt`nextDt
    ensures rt.Valid()
    ensures Has(old(rt.recs[c].info), INITIALIZED) ==>
              rt.recs == old(rt.recs) && rt.trace == old(rt.trace) && TablesOf(rt) == old(TablesOf(rt))
    ensures !Has(old(rt.recs[c].info), INITIALIZED) && !Linkable(old(rt.Names()), old(rt.recs), old(rt.Registered()), rt.rank, c) ==>
              rt.recs == old(rt.recs) && rt.trace == old(rt.trace) && TablesOf(rt) == old(TablesOf(rt))
    ensures !Has(old(rt.recs[c].info), INITIALIZED) && Linkable(old(rt.Names()), old(rt.recs), old(rt.Registered()), rt.rank, c) ==>
              && HooksOk(Setup(old(rt.Names()), old(rt.recs), old(rt.Registered()), rt.rank, c), rt.batches, rt.rank)
              && IsClass(Setup(old(rt.Names()), old(rt.recs), old(rt.Registered()), rt.rank, c), c)
              && rt.recs == InitMarks(Setup(old(rt.Names()), old(rt.recs), old(rt.Registered()), rt.rank, c), rt.rank, c)
              && rt.trace == old(rt.trace) +
                   InitEvents(Setup(old(rt.Names()), old(rt.recs), old(rt.Registered()), rt.rank, c), rt.batches, rt.rank, rt.initializeUid, c)
              && TablesOf(rt) == InitTables(Setup(old(rt.Names()), old(rt.recs), old(rt.Registered()), rt.rank, c),
                                            rt.batches, rt.cats, rt.rank, rt.bound, old(TablesOf(rt)), c)
              && Has(rt.recs[c].info, INITIALIZED)
    ensures rt.Registered() == old(rt.Registered()) && forall x :: IsClass(old(rt.recs), x) ==> IsClass(rt.recs, x)
    ensures rt.recs == ObjcInit(old(rt.Names()), old(rt.recs), old(rt.Registered()), rt.rank, rt.batches, rt.cats, rt.bound,
                                rt.initializeUid, old(TablesOf(rt)), c).0
    ensures rt.trace == old(rt.trace) + ObjcInit(old(rt.Names()), old(rt.recs), old(rt.Registered()), rt.rank, rt.batches, rt.cats,
                                                 rt.bound, rt.initializeUid, old(TablesOf(rt)), c).1
    ensures TablesOf(rt) == ObjcInit(old(rt.Names()), old(rt.recs), old(rt.Registered()), rt.rank, rt.batches, rt.cats, rt.bound,
                                     rt.initializeUid, old(TablesOf(rt)), c).2
  {
    if Has(rt.recs[c].info, INITIALIZED) {
      return;
    }
    ghost var names, recs0, reg := rt.Names(), rt.recs, rt.Registered();
    SetupClass(rt, c);
    SetupLinksSelf(names, recs0, reg, rt.rank, c);
    if !Has(rt.recs[c].info, SETUP) {
      SetupUnlinkable(names, recs0, reg, rt.rank, c);
      return;
    }
    ValidHooks(rt);
    ghost var r1 := rt.recs;
    assert rt.Registered() == reg;
    InitializeClass(rt, c);
    InitAgain(r1, rt.batches, rt.rank, rt.initializeUid, c);
    InitKeepsClasses(names, recs0, reg, rt.rank, c);
  }

  /** objc_initialize_class leaves every class a class: linking and the status flags never touch the CLASS bit. */
  lemma InitKeepsClasses(names: Names, recs: Records, reg: set<ClassId>, rank: ClassId -> nat, c: ClassId)
    requires Ok(names, recs, reg, rank) && IsClass(recs, c) && c in reg
    requires SupersRanked(Setup(names, recs, reg, rank, c), rank)
    ensures IsClass(Setup(names, recs, reg, rank, c), c)
    ensures forall x :: IsClass(recs, x) ==> IsClass(InitMarks(Setup(names, recs, reg, rank, c), rank, c), x)
  {
    var r := Setup(names, recs, reg, rank, c);
    SetupGrows(names, recs, reg, rank, c);
    assert SameIdentity(recs[c], r[c]);
    var S := InitSet(r, rank, c);
    var r1 := Marked(r, S, DTABLE);
    forall x | IsClass(recs, x)
      ensures IsClass(InitMarks(r, rank, c), x)
    {
      assert SameIdentity(recs[x], r[x]);
      if x in S {
        assert r1[x].info == SetFlag(r[x].info, DTABLE);
        assert Marked(r1, S, INITIALIZED)[x].info == SetFlag(r1[x].info, INITIALIZED);
      }
    }
  }
}
