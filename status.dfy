/**
  * The status bits of class records over time. Every update of `info` in
  * class.c is an `|=`, so bits are only ever set; SETUP is only ever gained
  * by a class setup_class can link. This module proves what that means for
  * the invariants, for linkability, and for the walk up the superclass
  * chain that call_load and initialize_class share.
  */
module Status {
  import opened RuntimeTypes
  import opened MethodLists
  import opened Hierarchy
  import opened ObjcRuntime

  // ---------------------------------------------------------------------
  // Setting one flag

  /** b has every status flag a has. */
  predicate Keeps(a: Info, b: Info) {
    && (Has(a, SETUP) ==> Has(b, SETUP))
    && (Has(a, LOADED) ==> Has(b, LOADED))
    && (Has(a, DTABLE) ==> Has(b, DTABLE))
    && (Has(a, INITIALIZED) ==> Has(b, INITIALIZED))
  }

  /**
    * b is record a with only its flags and method chain changed; the flags
    * the hierarchy invariants read stay, and DTABLE needs SETUP.
    */
  predicate Retouch(a: ClassRec, b: ClassRec) {
    && b == a.(info := b.info, methodlist := b.methodlist)
    && Has(b.info, CLASS) == Has(a.info, CLASS) && Has(b.info, METACLASS) == Has(a.info, METACLASS)
    && Has(b.info, SETUP) == Has(a.info, SETUP)
    && (Has(b.info, DTABLE) ==> Has(b.info, SETUP))
  }

  /** Retouching one record keeps the hierarchy invariants. */
  lemma RetouchKeepsOk(names: Names, recs: Records, reg: set<ClassId>, rank: ClassId -> nat, c: ClassId, b: ClassRec)
    requires c in recs && Retouch(recs[c], b) && Ok(names, recs, reg, rank)
    ensures Ok(names, recs[c := b], reg, rank)
  {
    var r := recs[c := b];
    forall x | x in r
      ensures RecOk(r, reg, rank, x)
    {
      assert RecOk(recs, reg, rank, x);
      if Has(recs[x].info, CLASS) {
        assert ClassOk(recs, reg, rank, x);
      }
    }
    assert MetasDistinct(r) by {
      forall c1, c2 | c1 in r && c2 in r && IsClass(r, c1) && IsClass(r, c2) && MetaOf(r, c1) == MetaOf(r, c2)
        ensures c1 == c2
      {
        assert MetaOf(recs, c1) == MetaOf(recs, c2);
      }
    }
    assert NamesOk(names, r, reg, rank) by {
      forall n | n in names
        ensures IsClass(r, names[n]) && names[n] in reg
      {
        assert IsClass(recs, names[n]);
      }
      forall x | IsClass(r, x) && !Has(r[x].info, SETUP) && r[x].superName.Some? && r[x].superName.value in names
        ensures NameEdgeOk(r, rank, x, names[r[x].superName.value])
      {
        assert NameEdgeOk(recs, rank, x, names[recs[x].superName.value]);
      }
    }
  }

  /** Retouching one record keeps the runtime's other invariants, as long as its chain is made of existing batches. */
  lemma RetouchKeepsRest(recs: Records, c: ClassId, b: ClassRec, batches: Batches, cats: map<string, seq<Category>>,
                         dtableOf: map<ClassId, DtId>, dtables: map<DtId, Table>, nextDt: DtId, rank: ClassId -> nat, bound: nat)
    requires c in recs && Retouch(recs[c], b) && ChainIn(batches, b.methodlist)
    requires DtablesOk(recs, dtableOf, dtables, nextDt) && ChainsOk(recs, batches, cats) && RanksBelow(recs, rank, bound)
    ensures DtablesOk(recs[c := b], dtableOf, dtables, nextDt) && ChainsOk(recs[c := b], batches, cats)
    ensures RanksBelow(recs[c := b], rank, bound)
  {
  }

  /** `cls->info |= f` for a status flag; DTABLE only ever goes on a linked record. */
  method SetInfo(rt: Runtime, c: ClassId, f: Info)
    requires c in rt.recs && rt.Valid()
    requires f == LOADED || f == INITIALIZED || (f == DTABLE && Has(rt.recs[c].info, SETUP))
    modifies rt`recs
    ensures rt.recs == old(rt.recs)[c := old(rt.recs[c]).(info := SetFlag(old(rt.recs[c].info), f))]
    ensures rt.Valid() && rt.batches == old(rt.batches) && rt.trace == old(rt.trace)
    ensures rt.dtableOf == old(rt.dtableOf) && rt.dtables == old(rt.dtables) && rt.nextDt == old(rt.nextDt)
  {
    var b := rt.recs[c].(info := SetFlag(rt.recs[c].info, f));
    assert RecOk(rt.recs, rt.Registered(), rt.rank, c);
    RetouchKeepsOk(rt.Names(), rt.recs, rt.Registered(), rt.rank, c, b);
    RetouchKeepsRest(rt.recs, c, b, rt.batches, rt.cats, rt.dtableOf, rt.dtables, rt.nextDt, rt.rank, rt.bound);
    rt.recs := rt.recs[c := b];
  }

  /** The records with flag f set on every record of S. */
  function Marked(recs: Records, S: set<ClassId>, f: Info): (r: Records)
    requires IsFlag(f)
    ensures r.Keys == recs.Keys
    ensures forall x {:trigger r[x]} :: x in recs ==> r[x] == recs[x].(info := r[x].info)
    ensures forall x {:trigger r[x]} :: x in recs && x in S ==> Has(r[x].info, f)
    ensures forall x {:trigger r[x]} :: x in recs && x !in S ==> r[x] == recs[x]
  {
    map x | x in recs :: if x in S then recs[x].(info := SetFlag(recs[x].info, f)) else recs[x]
  }

  /** Marking one more record is one more `|=`. */
  lemma MarkedPlus(recs: Records, S: set<ClassId>, x: ClassId, f: Info)
    requires IsFlag(f) && x in recs && x !in S
    ensures Marked(recs, S + {x}, f) == Marked(recs, S, f)[x := recs[x].(info := SetFlag(recs[x].info, f))]
  {
  }

  // ---------------------------------------------------------------------
  // Records only grow

  /**
    * recs' is recs after any number of linkings and flag updates: the same
    * records with the same identities, no flag cleared, and SETUP gained
    * only by classes setup_class could link.
    */
  ghost predicate Grows(names: Names, reg: set<ClassId>, rank: ClassId -> nat, recs: Records, recs': Records)
    requires Ok(names, recs, reg, rank)
  {
    && recs'.Keys == recs.Keys
    && (forall x {:trigger recs'[x]} :: x in recs ==> SameIdentity(recs[x], recs'[x]) && Keeps(recs[x].info, recs'[x].info))
    && (forall x {:trigger recs'[x]} :: IsClass(recs, x) && Has(recs'[x].info, SETUP) ==>
          Has(recs[x].info, SETUP) || Linkable(names, recs, reg, rank, x))
  }

  lemma GrowsRefl(names: Names, reg: set<ClassId>, rank: ClassId -> nat, recs: Records)
    requires Ok(names, recs, reg, rank)
    ensures Grows(names, reg, rank, recs, recs)
  {
  }

  /**
    * A class is linkable after the records grew exactly when it was before:
    * the superclass names are the same, and a class that gained SETUP was
    * linkable already.
    */
  lemma {:induction false} LinkableAgree(names: Names, recs: Records, recs': Records, reg: set<ClassId>, rank: ClassId -> nat, y: ClassId)
    requires Ok(names, recs, reg, rank) && Ok(names, recs', reg, rank)
    requires Grows(names, reg, rank, recs, recs')
    requires IsClass(recs, y)
    ensures IsClass(recs', y)
    ensures Linkable(names, recs', reg, rank, y) == Linkable(names, recs, reg, rank, y)
    decreases rank(y)
  {
    assert SameIdentity(recs[y], recs'[y]) && Keeps(recs[y].info, recs'[y].info);
    if Has(recs[y].info, SETUP) || Has(recs'[y].info, SETUP) || recs[y].superName.None? {
    } else if recs[y].superName.value in names {
      var d := names[recs[y].superName.value];
      assert NameEdgeOk(recs, rank, y, d);
      assert IsClass(recs, d);
      LinkableAgree(names, recs, recs', reg, rank, d);
    }
  }

  lemma GrowsTrans(names: Names, reg: set<ClassId>, rank: ClassId -> nat, a: Records, b: Records, c: Records)
    requires Ok(names, a, reg, rank) && Ok(names, b, reg, rank)
    requires Grows(names, reg, rank, a, b) && Grows(names, reg, rank, b, c)
    ensures Grows(names, reg, rank, a, c)
  {
    forall x | x in a
      ensures SameIdentity(a[x], c[x]) && Keeps(a[x].info, c[x].info)
    {
      assert SameIdentity(a[x], b[x]) && Keeps(a[x].info, b[x].info);
      assert SameIdentity(b[x], c[x]) && Keeps(b[x].info, c[x].info);
    }
    forall x | IsClass(a, x) && Has(c[x].info, SETUP)
      ensures Has(a[x].info, SETUP) || Linkable(names, a, reg, rank, x)
    {
      assert SameIdentity(a[x], b[x]) && SameIdentity(b[x], c[x]);
      if !Has(b[x].info, SETUP) {
        LinkableAgree(names, a, b, reg, rank, x);
      } else {
        assert Has(b[x].info, SETUP) ==> Has(a[x].info, SETUP) || Linkable(names, a, reg, rank, x);
      }
    }
  }

  /** setup_class sets flags and clears none. */
  lemma SetupKeepsFlags(names: Names, recs: Records, r: Records, L: set<ClassId>, x: ClassId)
    requires forall y {:trigger y in L} :: y in L ==> y in recs
    requires SetupRelAll(names, recs, r, L) && x in recs
    ensures x in r && Keeps(recs[x].info, r[x].info)
  {
    assert SetupRel(names, recs, r, L, x);
    if x in L {
      LinkedKeepsFlags(names, recs, r, x);
    } else if x in Metas(recs, L) {
      var y :| y in L && recs[y].meta == x;
      assert SetupRel(names, recs, r, L, y);
      LinkedKeepsFlags(names, recs, r, y);
    } else {
      assert r[x].info == Body(r[x]).info == Body(recs[x]).info;
    }
  }

  lemma SetFlagKeeps(info: Info, f: Info)
    requires IsFlag(f)
    ensures Keeps(info, SetFlag(info, f))
  {
  }

  /** Linking x sets SETUP on x and its metaclass and leaves their other flags. */
  lemma LinkedKeepsFlags(names: Names, recs: Records, r: Records, x: ClassId)
    requires LinkedAs(names, recs, r, x)
    ensures Keeps(recs[x].info, r[x].info) && Keeps(recs[recs[x].meta].info, r[recs[x].meta].info)
  {
    var sup := Resolved(names, recs[x]);
    var m := recs[x].meta;
    assert r[x].info == Body(r[x]).info == Body(LinkedRecord(recs[x], sup, SuperSize(r, sup))).info;
    assert Body(r[m]) == Body(recs[m].(superclass := Some(if sup.None? then x else recs[sup.value].meta),
                                       info := SetFlag(recs[m].info, SETUP)));
    assert r[m].info == Body(r[m]).info;
    SetFlagKeeps(recs[x].info, SETUP);
    SetFlagKeeps(recs[m].info, SETUP);
  }

  /** The records grow under setup_class. */
  lemma SetupGrows(names: Names, recs: Records, reg: set<ClassId>, rank: ClassId -> nat, c: ClassId)
    requires Ok(names, recs, reg, rank) && IsClass(recs, c) && c in reg
    ensures Ok(names, Setup(names, recs, reg, rank, c), reg, rank)
    ensures Grows(names, reg, rank, recs, Setup(names, recs, reg, rank, c))
  {
    var r := Setup(names, recs, reg, rank, c);
    var L := Linking(names, recs, reg, rank, c);
    SetupSpec(names, recs, reg, rank, c);
    SetupLinks(names, recs, reg, rank, c);
    MetasAreMetaclasses(names, recs, reg, rank, L);
    forall x | x in recs
      ensures SameIdentity(recs[x], r[x]) && Keeps(recs[x].info, r[x].info)
    {
      SetupKeepsFlags(names, recs, r, L, x);
    }
  }

  /** The records grow when a status flag other than SETUP is set. */
  lemma MarkedGrows(names: Names, recs: Records, reg: set<ClassId>, rank: ClassId -> nat, S: set<ClassId>, f: Info)
    requires Ok(names, recs, reg, rank)
    requires f == LOADED || f == DTABLE || f == INITIALIZED
    ensures Grows(names, reg, rank, recs, Marked(recs, S, f))
  {
    var r := Marked(recs, S, f);
    forall x | x in recs
      ensures SameIdentity(recs[x], r[x]) && Keeps(recs[x].info, r[x].info)
    {
      assert r[x] == recs[x].(info := r[x].info);
      if x in S {
        assert r[x].info == SetFlag(recs[x].info, f);
      }
    }
  }

  /** Setting LOADED or INITIALIZED on any set of records keeps the hierarchy invariants. */
  lemma {:induction false} MarkedKeepsOk(names: Names, recs: Records, reg: set<ClassId>, rank: ClassId -> nat, S: set<ClassId>, f: Info)
    requires Ok(names, recs, reg, rank) && (f == LOADED || f == INITIALIZED)
    ensures Ok(names, Marked(recs, S, f), reg, rank)
    decreases |S|
  {
    if S != {} {
      var x :| x in S;
      MarkedKeepsOk(names, recs, reg, rank, S - {x}, f);
      MarkedOneMore(names, recs, reg, rank, S - {x}, x, f);
      assert S - {x} + {x} == S;
    } else {
      assert Marked(recs, S, f) == recs;
    }
  }

  /** Marking one more class keeps the records sound. */
  lemma MarkedOneMore(names: Names, recs: Records, reg: set<ClassId>, rank: ClassId -> nat, T: set<ClassId>, x: ClassId, f: Info)
    requires Ok(names, recs, reg, rank) && (f == LOADED || f == INITIALIZED) && x !in T
    requires Ok(names, Marked(recs, T, f), reg, rank)
    ensures Ok(names, Marked(recs, T + {x}, f), reg, rank)
  {
    var r := Marked(recs, T, f);
    if x in recs {
      MarkedPlus(recs, T, x, f);
      assert r[x] == recs[x] && RecOk(recs, reg, rank, x);
      RetouchKeepsOk(names, r, reg, rank, x, recs[x].(info := SetFlag(recs[x].info, f)));
    } else {
      assert Marked(recs, T + {x}, f) == r;
    }
  }

  // ---------------------------------------------------------------------
  // The walk up the superclass chain

  /** A class's superclass is a class of smaller rank. */
  ghost predicate SupersRanked(recs: Records, rank: ClassId -> nat) {
    forall x {:trigger recs[x]} :: IsClass(recs, x) && recs[x].superclass.Some? ==>
      IsClass(recs, recs[x].superclass.value) && rank(recs[x].superclass.value) < rank(x)
  }

  /** What call_method needs of a class: its metaclass exists and so do the batches of its chain. */
  predicate MetaIn(recs: Records, batches: Batches, c: ClassId) {
    c in recs && recs[c].meta in recs && ChainIn(batches, recs[recs[c].meta].methodlist)
  }

  /** What the hook walks need: ranked superclasses and callable metaclass chains. */
  ghost predicate HooksOk(recs: Records, batches: Batches, rank: ClassId -> nat) {
    SupersRanked(recs, rank) && forall x {:trigger recs[x]} :: IsClass(recs, x) ==> MetaIn(recs, batches, x)
  }

  lemma ValidHooks(rt: Runtime)
    requires rt.Valid()
    ensures HooksOk(rt.recs, rt.batches, rt.rank)
  {
    forall x | IsClass(rt.recs, x)
      ensures MetaIn(rt.recs, rt.batches, x)
      ensures rt.recs[x].superclass.Some? ==>
                IsClass(rt.recs, rt.recs[x].superclass.value) && rt.rank(rt.recs[x].superclass.value) < rt.rank(x)
    {
      assert RecOk(rt.recs, rt.Registered(), rt.rank, x) && ClassOk(rt.recs, rt.Registered(), rt.rank, x);
    }
  }

  /** Growing records keep the hook walks well defined: superclasses, metaclasses and chains do not change. */
  lemma GrowsKeepsHooks(names: Names, reg: set<ClassId>, rank: ClassId -> nat, recs: Records, recs': Records, batches: Batches)
    requires Ok(names, recs, reg, rank) && Grows(names, reg, rank, recs, recs')
    requires HooksOk(recs, batches, rank) && forall x {:trigger recs'[x]} :: x in recs ==> recs'[x].superclass == recs[x].superclass
    ensures HooksOk(recs', batches, rank)
  {
    forall x | IsClass(recs', x)
      ensures MetaIn(recs', batches, x)
    {
      assert SameIdentity(recs[x], recs'[x]);
      assert SameIdentity(recs[recs[x].meta], recs'[recs[x].meta]);
    }
    forall x | IsClass(recs', x) && recs'[x].superclass.Some?
      ensures IsClass(recs', recs'[x].superclass.value) && rank(recs'[x].superclass.value) < rank(x)
    {
      assert SameIdentity(recs[x], recs'[x]);
      assert SameIdentity(recs[recs[x].superclass.value], recs'[recs[x].superclass.value]);
    }
  }

  /** Every record's method chain is made of existing batches: the records' half of ChainsOk. */
  ghost predicate RecChainsIn(recs: Records, batches: Batches) {
    forall c {:trigger recs[c]} :: c in recs ==> ChainIn(batches, recs[c].methodlist)
  }

  /** Sound records whose chains exist make the hook walks well defined. */
  lemma OkHooks(names: Names, recs: Records, reg: set<ClassId>, rank: ClassId -> nat, batches: Batches)
    requires Ok(names, recs, reg, rank) && RecChainsIn(recs, batches)
    ensures HooksOk(recs, batches, rank)
  {
    forall x | IsClass(recs, x)
      ensures MetaIn(recs, batches, x)
      ensures recs[x].superclass.Some? ==> IsClass(recs, recs[x].superclass.value) && rank(recs[x].superclass.value) < rank(x)
    {
      assert RecOk(recs, reg, rank, x) && ClassOk(recs, reg, rank, x);
    }
  }

  /** Growing records keep their chains. */
  lemma GrowsChains(names: Names, reg: set<ClassId>, rank: ClassId -> nat, recs: Records, recs': Records, batches: Batches)
    requires Ok(names, recs, reg, rank) && Grows(names, reg, rank, recs, recs') && RecChainsIn(recs, batches)
    ensures RecChainsIn(recs', batches)
  {
    forall x | x in recs'
      ensures ChainIn(batches, recs'[x].methodlist)
    {
      assert SameIdentity(recs[x], recs'[x]);
    }
  }

  /**
    * The classes an `info & f` check walking up from c finds to do, as
    * call_load (f = LOADED) and initialize_class (f = INITIALIZED) walk:
    * nothing when c has f, otherwise those of its superclass and then c.
    */
  ghost function Pending(recs: Records, rank: ClassId -> nat, c: ClassId, f: Info): (p: seq<ClassId>)
    requires SupersRanked(recs, rank) && IsClass(recs, c)
    ensures forall i :: 0 <= i < |p| ==> IsClass(recs, p[i]) && !Has(recs[p[i]].info, f) && rank(p[i]) <= rank(c)
    ensures p == [] <==> Has(recs[c].info, f)
    ensures p != [] ==> p[|p| - 1] == c
    decreases rank(c)
  {
    if Has(recs[c].info, f) then []
    else if recs[c].superclass.None? then [c]
    else Pending(recs, rank, recs[c].superclass.value, f) + [c]
  }

  /**
    * The walk goes superclass first: each class after the first is the
    * subclass of the one before it, and the first has no superclass or one
    * that has f already.
    */
  lemma {:induction false} PendingOrdered(recs: Records, rank: ClassId -> nat, c: ClassId, f: Info)
    requires SupersRanked(recs, rank) && IsClass(recs, c)
    ensures var p := Pending(recs, rank, c, f);
            && (forall i {:trigger p[i]} :: 0 < i < |p| ==> recs[p[i]].superclass == Some(p[i - 1]))
            && (p != [] ==> recs[p[0]].superclass.None? || Has(recs[recs[p[0]].superclass.value].info, f))
    decreases rank(c)
  {
    var p := Pending(recs, rank, c, f);
    if !Has(recs[c].info, f) && recs[c].superclass.Some? {
      var s := recs[c].superclass.value;
      var q := Pending(recs, rank, s, f);
      PendingOrdered(recs, rank, s, f);
      assert p == q + [c];
      if q == [] {
        assert p == [c];
      } else {
        assert q[|q| - 1] == s && p[0] == q[0];
        forall i | 0 < i < |p|
          ensures recs[p[i]].superclass == Some(p[i - 1])
        {
          if i < |q| {
            assert p[i] == q[i] && p[i - 1] == q[i - 1];
          }
        }
      }
    }
  }

  /** Once the walk's classes have f, a second walk finds nothing to do. */
  lemma PendingDone(recs: Records, rank: ClassId -> nat, c: ClassId, f: Info)
    requires SupersRanked(recs, rank) && IsClass(recs, c) && IsFlag(f) && f != CLASS
    ensures var r := Marked(recs, (set x | x in Pending(recs, rank, c, f)), f);
            SupersRanked(r, rank) && IsClass(r, c) && Pending(r, rank, c, f) == []
  {
    var p := Pending(recs, rank, c, f);
    var r := Marked(recs, (set x | x in p), f);
    forall x: ClassId | IsClass(r, x) && r[x].superclass.Some?
      ensures IsClass(r, r[x].superclass.value) && rank(r[x].superclass.value) < rank(x)
    {
      assert r[x] == recs[x].(info := r[x].info);
      assert r[recs[x].superclass.value] == recs[recs[x].superclass.value].(info := r[recs[x].superclass.value].info);
    }
    assert r[c] == recs[c].(info := r[c].info);
    if p != [] {
      assert c in p;
    }
  }
}
