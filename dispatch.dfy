/**
  * Building dispatch tables (objc_update_dtable): a record's table is its
  * superclass's table overlaid with the record's own methods and then its
  * categories' methods; the shared empty table is replaced by a fresh one
  * before anything is written, and the rebuild walks down the subclass
  * lists.
  */
module Dispatch {
  import opened RuntimeTypes
  import opened MethodLists
  import opened Hierarchy
  import opened ObjcRuntime

  /** Where the dispatch tables stand: each registered record's table address, the tables, the next fresh address. */
  datatype Tables = Tables(dtableOf: map<ClassId, DtId>, dtables: map<DtId, Table>, nextDt: DtId)

  function TablesOf(rt: Runtime): Tables
    reads rt`dtableOf, rt`dtables, rt`nextDt
  {
    Tables(rt.dtableOf, rt.dtables, rt.nextDt)
  }

  ghost predicate TablesOk(recs: Records, st: Tables) {
    DtablesOk(recs, st.dtableOf, st.dtables, st.nextDt)
  }

  /** Every record that has DTABLE, and its superclass, has a table. */
  ghost predicate TargetsOk(recs: Records, reg: set<ClassId>) {
    forall x {:trigger recs[x]} :: x in recs && Has(recs[x].info, DTABLE) ==>
      x in reg && (recs[x].superclass.Some? ==> recs[x].superclass.value in reg && recs[x].superclass.value != x)
  }

  /** DTABLE implies SETUP implies registered, and a superclass is registered. */
  lemma OkTargets(names: Names, recs: Records, reg: set<ClassId>, rank: ClassId -> nat)
    requires Ok(names, recs, reg, rank)
    ensures TargetsOk(recs, reg)
  {
    forall x | x in recs && Has(recs[x].info, DTABLE)
      ensures x in reg && (recs[x].superclass.Some? ==> recs[x].superclass.value in reg && recs[x].superclass.value != x)
    {
      assert RecOk(recs, reg, rank, x);
    }
  }

  // ---------------------------------------------------------------------
  // One record

  /** The categories objc_categories_for_class finds for a record of this name. */
  function CategoriesOf(cats: map<string, seq<Category>>, name: string): seq<Category> {
    if name in cats then cats[name] else []
  }

  /** The chain a category adds to a class (its instance methods) or to a metaclass (its class methods). */
  function CatChain(cat: Category, isClass: bool): seq<BatchId> {
    if isClass then cat.instanceMethods else cat.classMethods
  }

  predicate CatsIn(batches: Batches, cs: seq<Category>) {
    forall i :: 0 <= i < |cs| ==> ChainIn(batches, cs[i].instanceMethods) && ChainIn(batches, cs[i].classMethods)
  }

  /** The methods of the first n categories, category after category, each chain in link order. */
  function CatMethods(batches: Batches, cs: seq<Category>, isClass: bool, n: nat): seq<Method>
    requires CatsIn(batches, cs) && n <= |cs|
  {
    if n == 0 then [] else CatMethods(batches, cs, isClass, n - 1) + Flatten(batches, CatChain(cs[n - 1], isClass))
  }

  /** Every method objc_update_dtable writes into x's table, in the order it writes them. */
  function OwnMethods(recs: Records, batches: Batches, cats: map<string, seq<Category>>, x: ClassId): seq<Method>
    requires x in recs && ChainsOk(recs, batches, cats)
  {
    var cs := CategoriesOf(cats, recs[x].name);
    assert CatsIn(batches, cs) by {
      forall i | 0 <= i < |cs|
        ensures ChainIn(batches, cs[i].instanceMethods) && ChainIn(batches, cs[i].classMethods)
      {
        assert cats[recs[x].name][i] == cs[i];
      }
    }
    Flatten(batches, recs[x].methodlist) + CatMethods(batches, cs, Has(recs[x].info, CLASS), |cs|)
  }

  /** The table x's rebuild starts from: its superclass's table, else its own table (empty when it is the shared one). */
  function Base(recs: Records, st: Tables, x: ClassId): Table
    requires x in recs && x in st.dtableOf && st.dtableOf[x] in st.dtables
    requires recs[x].superclass.Some? ==> recs[x].superclass.value in st.dtableOf && st.dtableOf[recs[x].superclass.value] in st.dtables
  {
    if recs[x].superclass.Some? then st.dtables[st.dtableOf[recs[x].superclass.value]]
    else st.dtables[st.dtableOf[x]]
  }

  /** objc_sparsearray_new in place of the shared table: x gets a fresh empty table; a private table stays. */
  function Prepare(st: Tables, x: ClassId): (r: Tables)
    requires x in st.dtableOf
  {
    if st.dtableOf[x] == EmptyDt then Tables(st.dtableOf[x := st.nextDt], st.dtables[st.nextDt := map[]], st.nextDt + 1)
    else st
  }

  /** The body of objc_update_dtable for one record that has DTABLE, before it walks the subclass list. */
  ghost function Rebuild(recs: Records, batches: Batches, cats: map<string, seq<Category>>, st: Tables, x: ClassId): (r: Tables)
    requires x in recs && Has(recs[x].info, DTABLE) && TargetsOk(recs, st.dtableOf.Keys)
    requires TablesOk(recs, st) && ChainsOk(recs, batches, cats)
    ensures r.dtableOf.Keys == st.dtableOf.Keys && TablesOk(recs, r)
    ensures x in r.dtableOf && r.dtableOf[x] != EmptyDt
  {
    var st1 := Prepare(st, x);
    var id := st1.dtableOf[x];
    var r := st1.(dtables := st1.dtables[id := Overlay(Base(recs, st1, x), OwnMethods(recs, batches, cats, x))]);
    assert TablesOk(recs, r) by {
      forall c1, c2 | c1 in r.dtableOf && c2 in r.dtableOf && r.dtableOf[c1] == r.dtableOf[c2] && r.dtableOf[c1] != EmptyDt
        ensures c1 == c2
      {
        if st.dtableOf[x] == EmptyDt && (c1 == x || c2 == x) {
          assert c1 in st.dtableOf && st.dtableOf[c1] in st.dtables && c2 in st.dtableOf && st.dtableOf[c2] in st.dtables;
        }
      }
    }
    r
  }

  /** Rebuilding x leaves the table of every other record as it was. */
  lemma RebuildFrame(recs: Records, batches: Batches, cats: map<string, seq<Category>>, st: Tables, x: ClassId, y: ClassId)
    requires x in recs && Has(recs[x].info, DTABLE) && TargetsOk(recs, st.dtableOf.Keys)
    requires TablesOk(recs, st) && ChainsOk(recs, batches, cats)
    requires y in st.dtableOf && y != x
    ensures var r := Rebuild(recs, batches, cats, st, x);
            r.dtableOf[y] == st.dtableOf[y] && r.dtables[r.dtableOf[y]] == st.dtables[st.dtableOf[y]]
  {
    assert st.dtableOf[y] in st.dtables;
  }

  /**
    * After rebuilding x, each key holds the imp of the last method written
    * under it (own methods first, then the categories'), and every key no
    * method writes holds what the starting table held.
    */
  lemma RebuildLookup(recs: Records, batches: Batches, cats: map<string, seq<Category>>, st: Tables, x: ClassId, k: nat)
    requires x in recs && Has(recs[x].info, DTABLE) && TargetsOk(recs, st.dtableOf.Keys)
    requires TablesOk(recs, st) && ChainsOk(recs, batches, cats)
    ensures var r := Rebuild(recs, batches, cats, st, x);
            var ms := OwnMethods(recs, batches, cats, x);
            var base := if st.dtableOf[x] == EmptyDt && recs[x].superclass.None? then map[] else Base(recs, st, x);
            var t := r.dtables[r.dtableOf[x]];
            && (LastWithKey(ms, k).Some? ==> k in t && t[k] == ms[LastWithKey(ms, k).value].imp)
            && (LastWithKey(ms, k).None? ==> (k in t <==> k in base) && (k in base ==> t[k] == base[k]))
  {
    OverlayLookup(Base(recs, Prepare(st, x), x), OwnMethods(recs, batches, cats, x), k);
  }

  // ---------------------------------------------------------------------
  // The walk down the subclass lists

  /** Subclass lists are terminated, their entries are records ranked above the list's owner, and every rank is below bound. */
  ghost predicate ListsRanked(recs: Records, rank: ClassId -> nat, bound: nat) {
    forall x {:trigger recs[x]} :: x in recs ==>
      rank(x) < bound && Terminated(recs[x].subclassList) &&
      forall y {:trigger y in Entries(recs[x].subclassList)} :: y in Entries(recs[x].subclassList) ==> y in recs && rank(x) < rank(y)
  }

  lemma OkListsRanked(names: Names, recs: Records, reg: set<ClassId>, rank: ClassId -> nat, bound: nat)
    requires Ok(names, recs, reg, rank) && RanksBelow(recs, rank, bound)
    ensures ListsRanked(recs, rank, bound)
  {
    forall x | x in recs
      ensures rank(x) < bound && Terminated(recs[x].subclassList) &&
              forall y {:trigger y in Entries(recs[x].subclassList)} :: y in Entries(recs[x].subclassList) ==> y in recs && rank(x) < rank(y)
    {
      assert RecOk(recs, reg, rank, x);
    }
  }

  /** Every record listed has DTABLE. */
  predicate AllDtable(recs: Records, xs: seq<ClassId>) {
    forall i :: 0 <= i < |xs| ==> xs[i] in recs && Has(recs[xs[i]].info, DTABLE)
  }

  lemma AllDtableAppend(recs: Records, xs: seq<ClassId>, ys: seq<ClassId>)
    requires AllDtable(recs, xs) && AllDtable(recs, ys)
    ensures AllDtable(recs, xs + ys)
  {
  }

  /** The records objc_update_dtable(x) rebuilds, in the order it rebuilds them. */
  ghost function Visit(recs: Records, rank: ClassId -> nat, bound: nat, x: ClassId): (v: seq<ClassId>)
    requires ListsRanked(recs, rank, bound) && x in recs
    ensures AllDtable(recs, v)
    ensures v == [] <==> !Has(recs[x].info, DTABLE)
    ensures v != [] ==> v[0] == x
    decreases bound - rank(x), |Entries(recs[x].subclassList)| + 1
  {
    if !Has(recs[x].info, DTABLE) then []
    else
      var v := [x] + VisitEntries(recs, rank, bound, x, |Entries(recs[x].subclassList)|);
      AllDtableAppend(recs, [x], VisitEntries(recs, rank, bound, x, |Entries(recs[x].subclassList)|));
      v
  }

  /** Visit for each of the first n entries of x's subclass list, in list order. */
  ghost function VisitEntries(recs: Records, rank: ClassId -> nat, bound: nat, x: ClassId, n: nat): (v: seq<ClassId>)
    requires ListsRanked(recs, rank, bound) && x in recs && n <= |Entries(recs[x].subclassList)|
    ensures AllDtable(recs, v)
    decreases bound - rank(x), n
  {
    if n == 0 then []
    else
      var y := Entries(recs[x].subclassList)[n - 1];
      assert y in Entries(recs[x].subclassList);
      var v := VisitEntries(recs, rank, bound, x, n - 1) + Visit(recs, rank, bound, y);
      AllDtableAppend(recs, VisitEntries(recs, rank, bound, x, n - 1), Visit(recs, rank, bound, y));
      v
  }

  /** objc_update_dtable over a sequence of records: rebuild each in turn. */
  ghost function RebuildAll(recs: Records, batches: Batches, cats: map<string, seq<Category>>, st: Tables, xs: seq<ClassId>): (r: Tables)
    requires AllDtable(recs, xs)
    requires TargetsOk(recs, st.dtableOf.Keys) && TablesOk(recs, st) && ChainsOk(recs, batches, cats)
    ensures r.dtableOf.Keys == st.dtableOf.Keys && TablesOk(recs, r)
    decreases |xs|
  {
    if xs == [] then st
    else
      var r1 := RebuildAll(recs, batches, cats, st, xs[..|xs| - 1]);
      Rebuild(recs, batches, cats, r1, xs[|xs| - 1])
  }

  /** Rebuilding a run of records and then another is rebuilding them all in order. */
  lemma {:induction false} RebuildAllAppend(recs: Records, batches: Batches, cats: map<string, seq<Category>>, st: Tables,
                                            xs: seq<ClassId>, ys: seq<ClassId>)
    requires AllDtable(recs, xs)
    requires AllDtable(recs, ys) && AllDtable(recs, xs + ys)
    requires TargetsOk(recs, st.dtableOf.Keys) && TablesOk(recs, st) && ChainsOk(recs, batches, cats)
    ensures var r1 := RebuildAll(recs, batches, cats, st, xs);
            RebuildAll(recs, batches, cats, r1, ys) == RebuildAll(recs, batches, cats, st, xs + ys)
    decreases |ys|
  {
    if ys == [] {
      assert xs + ys == xs;
    } else {
      var ys' := ys[..|ys| - 1];
      assert (xs + ys)[..|xs + ys| - 1] == xs + ys' && (xs + ys)[|xs + ys| - 1] == ys[|ys| - 1];
      assert AllDtable(recs, ys') && AllDtable(recs, xs + ys');
      RebuildAllAppend(recs, batches, cats, st, xs, ys');
    }
  }

  /** What the dispatch methods need of a valid runtime: tables for every DTABLE record, ranked subclass lists. */
  lemma ValidDispatch(rt: Runtime)
    requires rt.Valid()
    ensures TargetsOk(rt.recs, rt.Registered()) && ListsRanked(rt.recs, rt.rank, rt.bound)
  {
    OkTargets(rt.Names(), rt.recs, rt.Registered(), rt.rank);
    OkListsRanked(rt.Names(), rt.recs, rt.Registered(), rt.rank, rt.bound);
  }

  /** One more category's chain goes after everything written so far. */
  lemma CatMethodsStep(batches: Batches, ownMs: seq<Method>, cs: seq<Category>, isClass: bool, i: nat)
    requires CatsIn(batches, cs) && i < |cs|
    ensures ChainIn(batches, CatChain(cs[i], isClass))
    ensures ownMs + CatMethods(batches, cs, isClass, i + 1)
              == (ownMs + CatMethods(batches, cs, isClass, i)) + Flatten(batches, CatChain(cs[i], isClass))
  {
  }

  /** The overlay loops of objc_update_dtable: the own chain, then each category's chain. */
  method BuildTable(base: Table, batches: Batches, own: seq<BatchId>, cs: seq<Category>, isClass: bool) returns (t: Table)
    requires ChainIn(batches, own) && CatsIn(batches, cs)
    ensures t == Overlay(base, Flatten(batches, own) + CatMethods(batches, cs, isClass, |cs|))
  {
    ghost var ownMs := Flatten(batches, own);
    ghost var written := ownMs;
    assert written == ownMs + CatMethods(batches, cs, isClass, 0);
    t := ApplyChain(base, batches, own);
    var i := 0;
    while i < |cs|
      invariant 0 <= i <= |cs|
      invariant written == ownMs + CatMethods(batches, cs, isClass, i)
      invariant t == Overlay(base, written)
    {
      var chain := CatChain(cs[i], isClass);
      CatMethodsStep(batches, ownMs, cs, isClass, i);
      OverlayAppend(base, written, Flatten(batches, chain));
      t := ApplyChain(t, batches, chain);
      written := written + Flatten(batches, chain);
      i := i + 1;
    }
  }

  /**
    * The body of objc_update_dtable for a record that has DTABLE: replace
    * the shared table by a fresh one, copy the superclass's table, overlay
    * the record's own chain, then each category's chain.
    */
  method RebuildTables(recs: Records, batches: Batches, cats: map<string, seq<Category>>, st: Tables, x: ClassId) returns (r: Tables)
    requires x in recs && Has(recs[x].info, DTABLE) && TargetsOk(recs, st.dtableOf.Keys)
    requires TablesOk(recs, st) && ChainsOk(recs, batches, cats)
    ensures r == Rebuild(recs, batches, cats, st, x)
  {
    r := st;
    if r.dtableOf[x] == EmptyDt {
      r := Tables(r.dtableOf[x := r.nextDt], r.dtables[r.nextDt := map[]], r.nextDt + 1);
    }
    assert r == Prepare(st, x);
    var id := r.dtableOf[x];
    var t := r.dtables[id];
    if recs[x].superclass.Some? {
      t := r.dtables[r.dtableOf[recs[x].superclass.value]];
    }
    var cs := CategoriesOf(cats, recs[x].name);
    assert CatsIn(batches, cs) by {
      forall i | 0 <= i < |cs|
        ensures ChainIn(batches, cs[i].instanceMethods) && ChainIn(batches, cs[i].classMethods)
      {
        assert cats[recs[x].name][i] == cs[i];
      }
    }
    t := BuildTable(t, batches, recs[x].methodlist, cs, Has(recs[x].info, CLASS));
    r := r.(dtables := r.dtables[id := t]);
  }

  /** objc_update_dtable's rebuild of one record, on the runtime's tables. */
  method RebuildOne(rt: Runtime, c: ClassId)
    requires c in rt.recs && Has(rt.recs[c].info, DTABLE)
    requires TargetsOk(rt.recs, rt.dtableOf.Keys) && TablesOk(rt.recs, TablesOf(rt)) && ChainsOk(rt.recs, rt.batches, rt.cats)
    modifies rt`dtableOf, rt`dtables, rt`nextDt
    ensures TablesOf(rt) == old(Rebuild(rt.recs, rt.batches, rt.cats, TablesOf(rt), c))
  {
    var r := RebuildTables(rt.recs, rt.batches, rt.cats, TablesOf(rt), c);
    rt.dtableOf, rt.dtables, rt.nextDt := r.dtableOf, r.dtables, r.nextDt;
    assert TablesOf(rt) == r;
  }

  // ---------------------------------------------------------------------
  // objc_update_dtable as the source walks it

  /** objc_update_dtable(x) on tables st: nothing without DTABLE, else rebuild x, then each subclass-list entry in turn. */
  ghost function Update(recs: Records, batches: Batches, cats: map<string, seq<Category>>, rank: ClassId -> nat, bound: nat,
                        st: Tables, x: ClassId): (r: Tables)
    requires ListsRanked(recs, rank, bound) && x in recs
    requires TargetsOk(recs, st.dtableOf.Keys) && TablesOk(recs, st) && ChainsOk(recs, batches, cats)
    ensures r.dtableOf.Keys == st.dtableOf.Keys && TablesOk(recs, r)
    decreases bound - rank(x), |Entries(recs[x].subclassList)| + 1
  {
    if !Has(recs[x].info, DTABLE) then st
    else AfterEntries(recs, batches, cats, rank, bound, Rebuild(recs, batches, cats, st, x), x, |Entries(recs[x].subclassList)|)
  }

  /** The subclass-list loop of objc_update_dtable(x), after its first n entries. */
  ghost function AfterEntries(recs: Records, batches: Batches, cats: map<string, seq<Category>>, rank: ClassId -> nat, bound: nat,
                              st: Tables, x: ClassId, n: nat): (r: Tables)
    requires ListsRanked(recs, rank, bound) && x in recs && n <= |Entries(recs[x].subclassList)|
    requires TargetsOk(recs, st.dtableOf.Keys) && TablesOk(recs, st) && ChainsOk(recs, batches, cats)
    ensures r.dtableOf.Keys == st.dtableOf.Keys && TablesOk(recs, r)
    decreases bound - rank(x), n
  {
    if n == 0 then st
    else
      var y := Entries(recs[x].subclassList)[n - 1];
      assert y in Entries(recs[x].subclassList);
      Update(recs, batches, cats, rank, bound, AfterEntries(recs, batches, cats, rank, bound, st, x, n - 1), y)
  }

  /** Rebuilding x alone is one Rebuild. */
  lemma RebuildAllOne(recs: Records, batches: Batches, cats: map<string, seq<Category>>, st: Tables, x: ClassId)
    requires x in recs && Has(recs[x].info, DTABLE)
    requires TargetsOk(recs, st.dtableOf.Keys) && TablesOk(recs, st) && ChainsOk(recs, batches, cats)
    ensures AllDtable(recs, [x]) && RebuildAll(recs, batches, cats, st, [x]) == Rebuild(recs, batches, cats, st, x)
  {
    assert [x][..0] == [];
  }

  /**
    * The walk rebuilds exactly the records Visit lists, in Visit's order:
    * x first, then each subclass's whole subtree before the next subclass.
    */
  lemma {:induction false} UpdateRebuildsVisited(recs: Records, batches: Batches, cats: map<string, seq<Category>>,
                                                 rank: ClassId -> nat, bound: nat, st: Tables, x: ClassId)
    requires ListsRanked(recs, rank, bound) && x in recs
    requires TargetsOk(recs, st.dtableOf.Keys) && TablesOk(recs, st) && ChainsOk(recs, batches, cats)
    ensures Update(recs, batches, cats, rank, bound, st, x) == RebuildAll(recs, batches, cats, st, Visit(recs, rank, bound, x))
    decreases bound - rank(x), |Entries(recs[x].subclassList)| + 1
  {
    if Has(recs[x].info, DTABLE) {
      var n := |Entries(recs[x].subclassList)|;
      var st1 := Rebuild(recs, batches, cats, st, x);
      var ve := VisitEntries(recs, rank, bound, x, n);
      assert Visit(recs, rank, bound, x) == [x] + ve;
      AfterEntriesRebuildsVisited(recs, batches, cats, rank, bound, st1, x, n);
      RebuildAllOne(recs, batches, cats, st, x);
      RebuildAllAppend(recs, batches, cats, st, [x], ve);
    } else {
      assert Visit(recs, rank, bound, x) == [];
    }
  }

  lemma {:induction false} AfterEntriesRebuildsVisited(recs: Records, batches: Batches, cats: map<string, seq<Category>>,
                                                       rank: ClassId -> nat, bound: nat, st: Tables, x: ClassId, n: nat)
    requires ListsRanked(recs, rank, bound) && x in recs && n <= |Entries(recs[x].subclassList)|
    requires TargetsOk(recs, st.dtableOf.Keys) && TablesOk(recs, st) && ChainsOk(recs, batches, cats)
    ensures AfterEntries(recs, batches, cats, rank, bound, st, x, n) == RebuildAll(recs, batches, cats, st, VisitEntries(recs, rank, bound, x, n))
    decreases bound - rank(x), n
  {
    if n > 0 {
      var y := Entries(recs[x].subclassList)[n - 1];
      assert y in Entries(recs[x].subclassList);
      var pre := VisitEntries(recs, rank, bound, x, n - 1);
      var v := Visit(recs, rank, bound, y);
      assert VisitEntries(recs, rank, bound, x, n) == pre + v;
      var mid := AfterEntries(recs, batches, cats, rank, bound, st, x, n - 1);
      assert AfterEntries(recs, batches, cats, rank, bound, st, x, n) == Update(recs, batches, cats, rank, bound, mid, y);
      AfterEntriesRebuildsVisited(recs, batches, cats, rank, bound, st, x, n - 1);
      assert mid == RebuildAll(recs, batches, cats, st, pre);
      UpdateRebuildsVisited(recs, batches, cats, rank, bound, mid, y);
      assert Update(recs, batches, cats, rank, bound, mid, y) == RebuildAll(recs, batches, cats, mid, v);
      RebuildAllAppend(recs, batches, cats, st, pre, v);
    } else {
      assert VisitEntries(recs, rank, bound, x, 0) == [];
    }
  }

  /** Rebuilding x moves no table address of its own, and leaves x with one. */
  lemma RebuildPointer(recs: Records, batches: Batches, cats: map<string, seq<Category>>, st: Tables, x: ClassId, y: ClassId)
    requires x in recs && Has(recs[x].info, DTABLE) && TargetsOk(recs, st.dtableOf.Keys)
    requires TablesOk(recs, st) && ChainsOk(recs, batches, cats)
    ensures y in st.dtableOf && st.dtableOf[y] != EmptyDt ==>
              y in Rebuild(recs, batches, cats, st, x).dtableOf && Rebuild(recs, batches, cats, st, x).dtableOf[y] == st.dtableOf[y]
    ensures x in Rebuild(recs, batches, cats, st, x).dtableOf && Rebuild(recs, batches, cats, st, x).dtableOf[x] != EmptyDt
  {
    assert Rebuild(recs, batches, cats, st, x).dtableOf == Prepare(st, x).dtableOf;
  }

  /**
    * objc_update_dtable never points a record back at the shared empty
    * table: a record y with a table of its own keeps that table's address.
    */
  lemma {:induction false} UpdateKeepsPrivate(recs: Records, batches: Batches, cats: map<string, seq<Category>>, rank: ClassId -> nat,
                                             bound: nat, st: Tables, x: ClassId, y: ClassId)
    requires ListsRanked(recs, rank, bound) && x in recs
    requires TargetsOk(recs, st.dtableOf.Keys) && TablesOk(recs, st) && ChainsOk(recs, batches, cats)
    requires y in st.dtableOf && st.dtableOf[y] != EmptyDt
    ensures y in Update(recs, batches, cats, rank, bound, st, x).dtableOf
    ensures Update(recs, batches, cats, rank, bound, st, x).dtableOf[y] == st.dtableOf[y]
    decreases bound - rank(x), |Entries(recs[x].subclassList)| + 1
  {
    if Has(recs[x].info, DTABLE) {
      var st1 := Rebuild(recs, batches, cats, st, x);
      var n := |Entries(recs[x].subclassList)|;
      RebuildPointer(recs, batches, cats, st, x, y);
      AfterEntriesKeepsPrivate(recs, batches, cats, rank, bound, st1, x, n, y);
      assert Update(recs, batches, cats, rank, bound, st, x) == AfterEntries(recs, batches, cats, rank, bound, st1, x, n);
    }
  }

  /** The subclass-list loop keeps every table address of its own. */
  lemma {:induction false} AfterEntriesKeepsPrivate(recs: Records, batches: Batches, cats: map<string, seq<Category>>,
                                                   rank: ClassId -> nat, bound: nat, st: Tables, x: ClassId, n: nat, y: ClassId)
    requires ListsRanked(recs, rank, bound) && x in recs && n <= |Entries(recs[x].subclassList)|
    requires TargetsOk(recs, st.dtableOf.Keys) && TablesOk(recs, st) && ChainsOk(recs, batches, cats)
    requires y in st.dtableOf && st.dtableOf[y] != EmptyDt
    ensures y in AfterEntries(recs, batches, cats, rank, bound, st, x, n).dtableOf
    ensures AfterEntries(recs, batches, cats, rank, bound, st, x, n).dtableOf[y] == st.dtableOf[y]
    decreases bound - rank(x), n
  {
    if n > 0 {
      var z := Entries(recs[x].subclassList)[n - 1];
      assert z in Entries(recs[x].subclassList);
      AfterEntriesKeepsPrivate(recs, batches, cats, rank, bound, st, x, n - 1, y);
      var mid := AfterEntries(recs, batches, cats, rank, bound, st, x, n - 1);
      assert mid.dtableOf.Keys == st.dtableOf.Keys && TablesOk(recs, mid);
      assert z in recs && TargetsOk(recs, mid.dtableOf.Keys);
      UpdateKeepsPrivate(recs, batches, cats, rank, bound, mid, z, y);
      assert AfterEntries(recs, batches, cats, rank, bound, st, x, n) == Update(recs, batches, cats, rank, bound, mid, z);
    } else {
      assert AfterEntries(recs, batches, cats, rank, bound, st, x, n) == st;
    }
  }

  /** objc_update_dtable(x) leaves x, when it has DTABLE, with a table of its own. */
  lemma UpdateGivesPrivate(recs: Records, batches: Batches, cats: map<string, seq<Category>>, rank: ClassId -> nat,
                           bound: nat, st: Tables, x: ClassId)
    requires ListsRanked(recs, rank, bound) && x in recs && Has(recs[x].info, DTABLE)
    requires TargetsOk(recs, st.dtableOf.Keys) && TablesOk(recs, st) && ChainsOk(recs, batches, cats)
    ensures x in Update(recs, batches, cats, rank, bound, st, x).dtableOf
    ensures Update(recs, batches, cats, rank, bound, st, x).dtableOf[x] != EmptyDt
  {
    var st1 := Rebuild(recs, batches, cats, st, x);
    var n := |Entries(recs[x].subclassList)|;
    RebuildPointer(recs, batches, cats, st, x, x);
    AfterEntriesKeepsPrivate(recs, batches, cats, rank, bound, st1, x, n, x);
    assert Update(recs, batches, cats, rank, bound, st, x) == AfterEntries(recs, batches, cats, rank, bound, st1, x, n);
  }

  /** objc_update_dtable on the runtime's tables. */
  method UpdateDtable(rt: Runtime, c: ClassId)
    requires c in rt.recs && ListsRanked(rt.recs, rt.rank, rt.bound)
    requires TargetsOk(rt.recs, rt.dtableOf.Keys) && TablesOk(rt.recs, TablesOf(rt)) && ChainsOk(rt.recs, rt.batches, rt.cats)
    modifies rt`dtableOf, rt`dtables, rt`nextDt
    ensures TablesOf(rt) == old(Update(rt.recs, rt.batches, rt.cats, rt.rank, rt.bound, TablesOf(rt), c))
    ensures rt.recs == old(rt.recs) && rt.batches == old(rt.batches) && rt.cats == old(rt.cats)
    decreases rt.bound - rt.rank(c), 1
  {
    if !Has(rt.recs[c].info, DTABLE) {
      return;
    }
    RebuildOne(rt, c);
    UpdateSubclasses(rt, c);
  }

  /** The loop of objc_update_dtable over the subclass list, after the record's own table is rebuilt. */
  method UpdateSubclasses(rt: Runtime, c: ClassId)
    requires c in rt.recs && ListsRanked(rt.recs, rt.rank, rt.bound)
    requires TargetsOk(rt.recs, rt.dtableOf.Keys) && TablesOk(rt.recs, TablesOf(rt)) && ChainsOk(rt.recs, rt.batches, rt.cats)
    modifies rt`dtableOf, rt`dtables, rt`nextDt
    ensures TablesOf(rt) == old(AfterEntries(rt.recs, rt.batches, rt.cats, rt.rank, rt.bound, TablesOf(rt), c,
                                             |Entries(rt.recs[c].subclassList)|))
    ensures rt.recs == old(rt.recs) && rt.batches == old(rt.batches) && rt.cats == old(rt.cats)
    decreases rt.bound - rt.rank(c), 0
  {
    ghost var recs, batches, cats, rank, bound, st := rt.recs, rt.batches, rt.cats, rt.rank, rt.bound, TablesOf(rt);
    var list := rt.recs[c].subclassList;
    if list.None? {
      return;
    }
    var l := list.value;
    ghost var es := Entries(list);
    assert es == TakeEntries(l);
    assert |es| < |l| && rank(c) < bound by {
      assert Terminated(recs[c].subclassList);
    }
    var i := 0;
    while l[i] != None
      invariant 0 <= i <= |es| < |l|
      invariant TablesOf(rt) == AfterEntries(recs, batches, cats, rank, bound, st, c, i)
      invariant rt.dtableOf.Keys == st.dtableOf.Keys && TablesOk(recs, TablesOf(rt))
      invariant rt.recs == recs && rt.batches == batches && rt.cats == cats && rt.rank == rank && rt.bound == bound
      decreases |l| - i
    {
      assert i < |es| && l[i].value == es[i];
      assert es[i] in recs && rank(c) < rank(es[i]) by {
        assert es[i] in Entries(recs[c].subclassList);
      }
      assert TargetsOk(recs, rt.dtableOf.Keys);
      UpdateDtable(rt, l[i].value);
      i := i + 1;
    }
    assert i == |es|;
  }

  /** Rebuilding dispatch tables keeps the runtime valid: the tables are the only thing it changes, and it keeps their invariant. */
  twostate lemma TablesKeepValid(rt: Runtime)
    requires old(rt.Valid())
    requires unchanged(rt`table, rt`recs, rt`batches, rt`nextBatch, rt`cats)
    requires rt.dtableOf.Keys == old(rt.dtableOf.Keys) && TablesOk(rt.recs, TablesOf(rt))
    ensures rt.Valid()
  {
    assert rt.Registered() == old(rt.Registered()) && rt.Names() == old(rt.Names());
  }
}
