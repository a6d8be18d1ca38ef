/**
  * class_replaceMethod and method_exchangeImplementations: the two
  * operations that write a method's imp after its class is in use.
  */
module Replace {
  import opened RuntimeTypes
  import opened MethodLists
  import opened Hierarchy
  import opened ObjcRuntime
  import opened Status
  import opened Dispatch
  import opened MethodSearch

  /** class_replaceMethod searches a metaclass's categories' class methods, any other record's instance methods. */
  function InstanceSide(recs: Records, c: ClassId): bool
    requires c in recs
  {
    !Has(recs[c].info, METACLASS)
  }

  /** The one-method list class_replaceMethod allocates when the search finds nothing. */
  function NewList(uid: nat, types: string, imp: Imp): (r: seq<Method>)
    ensures |r| == 1 && r[0].sel.uid == uid && r[0].sel.types == types && r[0].imp == imp
  {
    [Method(Selector(uid, types), imp)]
  }

  /** Record c's chain with the batch at address nb linked in front of it. */
  function Prepended(recs: Records, c: ClassId, nb: BatchId): (r: Records)
    requires c in recs
    ensures r.Keys == recs.Keys && c in r && r[c].methodlist == [nb] + recs[c].methodlist
    ensures r[c] == recs[c].(methodlist := r[c].methodlist) && forall x :: x in recs && x != c ==> r[x] == recs[x]
  {
    recs[c := recs[c].(methodlist := [nb] + recs[c].methodlist)]
  }

  // ---------------------------------------------------------------------
  // The invariants each branch keeps

  /** A new batch at a fresh address keeps every chain made of existing batches. */
  lemma AddBatchKeepsChains(recs: Records, batches: Batches, cats: map<string, seq<Category>>, nb: BatchId, ms: seq<Method>)
    requires ChainsOk(recs, batches, cats)
    ensures ChainsOk(recs, batches[nb := ms], cats)
  {
    var b2 := batches[nb := ms];
    forall chain: seq<BatchId> | ChainIn(batches, chain)
      ensures ChainIn(b2, chain)
    {
      forall i | 0 <= i < |chain|
        ensures chain[i] in b2
      {
        assert chain[i] in batches;
      }
    }
    forall x | x in recs
      ensures ChainIn(b2, recs[x].methodlist)
    {
      assert ChainIn(batches, recs[x].methodlist);
    }
    forall n, i | n in cats && 0 <= i < |cats[n]|
      ensures ChainIn(b2, cats[n][i].instanceMethods) && ChainIn(b2, cats[n][i].classMethods)
    {
      assert ChainIn(batches, cats[n][i].instanceMethods) && ChainIn(batches, cats[n][i].classMethods);
    }
  }

  /** Prepending a batch to record c's chain keeps every chain made of existing batches. */
  lemma PrependKeepsChains(recs: Records, batches: Batches, cats: map<string, seq<Category>>, c: ClassId, nb: BatchId, ms: seq<Method>)
    requires c in recs && ChainsOk(recs, batches, cats)
    ensures ChainsOk(recs, batches[nb := ms], cats)
    ensures ChainsOk(Prepended(recs, c, nb), batches[nb := ms], cats)
  {
    var b2 := batches[nb := ms];
    var r := Prepended(recs, c, nb);
    AddBatchKeepsChains(recs, batches, cats, nb, ms);
    assert ChainIn(b2, r[c].methodlist) by {
      assert ChainIn(batches, recs[c].methodlist);
      forall i | 0 <= i < |r[c].methodlist|
        ensures r[c].methodlist[i] in b2
      {
        if i > 0 {
          assert r[c].methodlist[i] == recs[c].methodlist[i - 1];
        }
      }
    }
    forall x | x in r
      ensures ChainIn(b2, r[x].methodlist)
    {
      if x != c {
        assert ChainIn(b2, recs[x].methodlist);
      }
    }
  }

  /** Prepending a fresh one-method batch to record c's chain keeps every invariant of the runtime. */
  lemma PrependKeepsValid(names: Names, recs: Records, reg: set<ClassId>, rank: ClassId -> nat, bound: nat,
                          batches: Batches, nextBatch: BatchId, cats: map<string, seq<Category>>,
                          dtableOf: map<ClassId, DtId>, dtables: map<DtId, Table>, nextDt: DtId, c: ClassId, ms: seq<Method>)
    requires c in recs && Ok(names, recs, reg, rank) && DtablesOk(recs, dtableOf, dtables, nextDt)
    requires ChainsOk(recs, batches, cats) && BatchesBelow(batches, nextBatch) && RanksBelow(recs, rank, bound)
    ensures Ok(names, Prepended(recs, c, nextBatch), reg, rank)
    ensures DtablesOk(Prepended(recs, c, nextBatch), dtableOf, dtables, nextDt)
    ensures ChainsOk(Prepended(recs, c, nextBatch), batches[nextBatch := ms], cats)
    ensures BatchesBelow(batches[nextBatch := ms], nextBatch + 1)
    ensures RanksBelow(Prepended(recs, c, nextBatch), rank, bound)
  {
    var b2 := batches[nextBatch := ms];
    var r := Prepended(recs, c, nextBatch);
    PrependKeepsChains(recs, batches, cats, c, nextBatch, ms);
    assert ChainIn(b2, r[c].methodlist);
    assert RecOk(recs, reg, rank, c);
    assert Retouch(recs[c], r[c]);
    RetouchKeepsOk(names, recs, reg, rank, c, r[c]);
    RetouchKeepsRest(recs, c, r[c], b2, cats, dtableOf, dtables, nextDt, rank, bound);
    assert r == recs[c := r[c]];
  }

  // ---------------------------------------------------------------------
  // What the search finds afterwards

  /** After the imp at the hit is replaced, the search stops at the same method, which now holds the new imp. */
  lemma ReplacedFound(recs: Records, batches: Batches, cats: map<string, seq<Category>>, c: ClassId, isClass: bool,
                      uid: nat, newimp: Imp)
    requires c in recs && ChainsOk(recs, batches, cats)
    requires ClassSearch(recs, batches, cats, c, isClass, uid).Some?
    ensures ValidRef(batches, ClassSearch(recs, batches, cats, c, isClass, uid).value)
    ensures ChainsOk(recs, SetImp(batches, ClassSearch(recs, batches, cats, c, isClass, uid).value, newimp), cats)
    ensures var hit := ClassSearch(recs, batches, cats, c, isClass, uid).value;
            var b2 := SetImp(batches, hit, newimp);
            ClassSearch(recs, b2, cats, c, isClass, uid) == Some(hit) && At(b2, hit).imp == newimp
  {
    var hit := ClassSearch(recs, batches, cats, c, isClass, uid).value;
    SetImpShape(batches, hit, newimp);
    ShapeClassSearch(recs, batches, SetImp(batches, hit, newimp), cats, c, isClass, uid);
  }

  /** A prepended batch whose one method has the uid is where the search stops. */
  lemma PrependedFound(recs: Records, batches: Batches, cats: map<string, seq<Category>>, c: ClassId, isClass: bool,
                       uid: nat, types: string, newimp: Imp, nb: BatchId)
    requires c in recs && ChainsOk(recs, batches, cats)
    requires nb in batches && batches[nb] == NewList(uid, types, newimp)
    requires |recs[c].methodlist| > 0 && recs[c].methodlist[0] == nb
    ensures ClassSearch(recs, batches, cats, c, isClass, uid) == Some(MethodRef(nb, 0))
    ensures At(batches, MethodRef(nb, 0)).imp == newimp
  {
    var ml := recs[c].methodlist;
    assert ChainIn(batches, ml);
    assert ml[..0] == [];
    FirstRefHit(batches, ml, uid, 0, 0);
  }

  // ---------------------------------------------------------------------
  // class_replaceMethod on values

  /** The records, the batches, the next batch address and the imp class_replaceMethod returns. */
  datatype Outcome = Outcome(recs: Records, batches: Batches, nextBatch: BatchId, oldimp: Imp)

  /**
    * What class_replaceMethod(c, uid, newimp, types) leaves behind before
    * the tables are rebuilt: the first method with the uid down c's own
    * chain, then down its categories' chains, gets the new imp and the old
    * one is returned; when there is none, a one-method list at a fresh
    * address goes in front of c's chain and Nil is returned.
    */
  function Replaced(recs: Records, batches: Batches, nextBatch: BatchId, cats: map<string, seq<Category>>,
                    c: ClassId, uid: nat, newimp: Imp, types: string): (o: Outcome)
    requires c in recs && ChainsOk(recs, batches, cats)
    ensures o.recs.Keys == recs.Keys && c in o.recs && o.recs[c].info == recs[c].info
  {
    match ClassSearch(recs, batches, cats, c, InstanceSide(recs, c), uid)
    case Some(hit) => Outcome(recs, SetImp(batches, hit, newimp), nextBatch, At(batches, hit).imp)
    case None => Outcome(Prepended(recs, c, nextBatch), batches[nextBatch := NewList(uid, types, newimp)], nextBatch + 1, NilImp)
  }

  /** class_replaceMethod keeps every invariant of the runtime. */
  lemma ReplacedKeepsValid(names: Names, recs: Records, reg: set<ClassId>, rank: ClassId -> nat, bound: nat,
                           batches: Batches, nextBatch: BatchId, cats: map<string, seq<Category>>,
                           dtableOf: map<ClassId, DtId>, dtables: map<DtId, Table>, nextDt: DtId,
                           c: ClassId, uid: nat, newimp: Imp, types: string)
    requires c in recs && Ok(names, recs, reg, rank) && DtablesOk(recs, dtableOf, dtables, nextDt)
    requires ChainsOk(recs, batches, cats) && BatchesBelow(batches, nextBatch) && RanksBelow(recs, rank, bound)
    ensures var o := Replaced(recs, batches, nextBatch, cats, c, uid, newimp, types);
            && Ok(names, o.recs, reg, rank) && DtablesOk(o.recs, dtableOf, dtables, nextDt)
            && ChainsOk(o.recs, o.batches, cats) && BatchesBelow(o.batches, o.nextBatch) && RanksBelow(o.recs, rank, bound)
  {
    match ClassSearch(recs, batches, cats, c, InstanceSide(recs, c), uid)
    case Some(hit) =>
      SetImpShape(batches, hit, newimp);
      ShapeKeepsChains(recs, batches, SetImp(batches, hit, newimp), cats);
    case None =>
      PrependKeepsValid(names, recs, reg, rank, bound, batches, nextBatch, cats, dtableOf, dtables, nextDt, c,
                        NewList(uid, types, newimp));
  }

  /**
    * After class_replaceMethod the same search finds a method with the uid
    * holding newimp: the one it found before when there was one, else the
    * new list's method; the returned imp is the one the found method held.
    */
  lemma ReplacedFinds(recs: Records, batches: Batches, nextBatch: BatchId, cats: map<string, seq<Category>>,
                      c: ClassId, uid: nat, newimp: Imp, types: string)
    requires c in recs && ChainsOk(recs, batches, cats)
    ensures var o := Replaced(recs, batches, nextBatch, cats, c, uid, newimp, types);
            ChainsOk(o.recs, o.batches, cats)
    ensures var o := Replaced(recs, batches, nextBatch, cats, c, uid, newimp, types);
            var before := ClassSearch(recs, batches, cats, c, InstanceSide(recs, c), uid);
            var after := ClassSearch(o.recs, o.batches, cats, c, InstanceSide(o.recs, c), uid);
            && after.Some? && At(o.batches, after.value).imp == newimp
            && (before.Some? ==> after == before && o.oldimp == At(batches, before.value).imp)
            && (before.None? ==> after == Some(MethodRef(nextBatch, 0)) && o.oldimp == NilImp)
  {
    var isClass := InstanceSide(recs, c);
    match ClassSearch(recs, batches, cats, c, isClass, uid)
    case Some(hit) =>
      ReplacedFound(recs, batches, cats, c, isClass, uid, newimp);
    case None =>
      var o := Replaced(recs, batches, nextBatch, cats, c, uid, newimp, types);
      PrependKeepsChains(recs, batches, cats, c, nextBatch, NewList(uid, types, newimp));
      PrependedFound(o.recs, o.batches, cats, c, isClass, uid, types, newimp, nextBatch);
  }

  // ---------------------------------------------------------------------
  // The operations on the runtime

  /** st is what objc_update_dtable(c) makes of st0 on the records, batches and categories given. */
  ghost predicate Rebuilt(recs: Records, batches: Batches, cats: map<string, seq<Category>>, rank: ClassId -> nat, bound: nat,
                          st0: Tables, st: Tables, c: ClassId) {
    && c in recs && ListsRanked(recs, rank, bound) && TargetsOk(recs, st0.dtableOf.Keys)
    && TablesOk(recs, st0) && ChainsOk(recs, batches, cats)
    && st == Update(recs, batches, cats, rank, bound, st0, c)
  }

  /** objc_update_dtable(c) on a valid runtime keeps it valid. */
  method Rebuild(rt: Runtime, c: ClassId)
    requires rt.Valid() && c in rt.recs
    modifies rt`dtableOf, rt`dtables, rt`nextDt
    ensures rt.Valid() && rt.recs == old(rt.recs) && rt.batches == old(rt.batches)
    ensures Rebuilt(rt.recs, rt.batches, rt.cats, rt.rank, rt.bound, old(TablesOf(rt)), TablesOf(rt), c)
  {
    ValidDispatch(rt);
    label Start:
    UpdateDtable(rt, c);
    TablesKeepValid@Start(rt);
  }

  /** The search and the write or the new list of class_replaceMethod, on the records and batches. */
  method ReplaceValues(recs: Records, batches: Batches, nextBatch: BatchId, cats: map<string, seq<Category>>,
                       c: ClassId, uid: nat, newimp: Imp, types: string) returns (o: Outcome)
    requires c in recs && ChainsOk(recs, batches, cats)
    ensures o == Replaced(recs, batches, nextBatch, cats, c, uid, newimp, types)
  {
    var isClass := !Has(recs[c].info, METACLASS);
    CategoriesIn(recs, batches, cats, recs[c].name);
    var hit := Search(batches, recs[c].methodlist, CategoriesOf(cats, recs[c].name), isClass, uid);
    assert hit == ClassSearch(recs, batches, cats, c, isClass, uid);
    if hit.Some? {
      var oldimp := At(batches, hit.value).imp;
      o := Outcome(recs, SetImp(batches, hit.value, newimp), nextBatch, oldimp);
    } else {
      var ml := [Method(Selector(uid, types), newimp)];
      o := Outcome(recs[c := recs[c].(methodlist := [nextBatch] + recs[c].methodlist)], batches[nextBatch := ml], nextBatch + 1, NilImp);
    }
  }

  /**
    * class_replaceMethod(c, uid, newimp, types): the search, the write or
    * the new list that Replaced describes, then objc_update_dtable(c).
    */
  method ReplaceMethod(rt: Runtime, c: ClassId, uid: nat, newimp: Imp, types: string) returns (oldimp: Imp)
    requires rt.Valid() && c in rt.recs
    modifies rt`batches, rt`nextBatch, rt`recs, rt`dtableOf, rt`dtables, rt`nextDt
    ensures var o := old(Replaced(rt.recs, rt.batches, rt.nextBatch, rt.cats, c, uid, newimp, types));
            rt.recs == o.recs && rt.batches == o.batches && rt.nextBatch == o.nextBatch && oldimp == o.oldimp
    ensures rt.Valid()
    ensures Rebuilt(rt.recs, rt.batches, rt.cats, rt.rank, rt.bound, old(TablesOf(rt)), TablesOf(rt), c)
  {
    ReplacedKeepsValid(rt.Names(), rt.recs, rt.Registered(), rt.rank, rt.bound, rt.batches, rt.nextBatch, rt.cats,
                       rt.dtableOf, rt.dtables, rt.nextDt, c, uid, newimp, types);
    var o := ReplaceValues(rt.recs, rt.batches, rt.nextBatch, rt.cats, c, uid, newimp, types);
    rt.recs, rt.batches, rt.nextBatch := o.recs, o.batches, o.nextBatch;
    oldimp := o.oldimp;
    Rebuild(rt, c);
  }

  /** method_exchangeImplementations(m1, m2): the two imps trade places; no dispatch table is rebuilt. */
  method ExchangeImplementations(rt: Runtime, m1: MethodRef, m2: MethodRef)
    requires rt.Valid() && ValidRef(rt.batches, m1) && ValidRef(rt.batches, m2)
    modifies rt`batches
    ensures rt.Valid() && rt.batches == Exchange(old(rt.batches), m1, m2)
  {
    ExchangeShape(rt.batches, m1, m2);
    ShapeKeepsChains(rt.recs, rt.batches, Exchange(rt.batches, m1, m2), rt.cats);
    rt.batches := Exchange(rt.batches, m1, m2);
  }

  /** Exchanging imps moves no search: every record's search stops at the same address as before. */
  lemma ExchangeKeepsSearch(recs: Records, batches: Batches, cats: map<string, seq<Category>>, c: ClassId, isClass: bool,
                            uid: nat, m1: MethodRef, m2: MethodRef)
    requires c in recs && ChainsOk(recs, batches, cats) && ValidRef(batches, m1) && ValidRef(batches, m2)
    ensures ChainsOk(recs, Exchange(batches, m1, m2), cats)
    ensures ClassSearch(recs, Exchange(batches, m1, m2), cats, c, isClass, uid) == ClassSearch(recs, batches, cats, c, isClass, uid)
  {
    ExchangeShape(batches, m1, m2);
    ShapeClassSearch(recs, batches, Exchange(batches, m1, m2), cats, c, isClass, uid);
  }
}
