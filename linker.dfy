/**
  * Linking classes into the hierarchy: add_subclass, the instance-size and
  * ivar slide, setup_class and objc_lookup_class, as operations on the
  * runtime state, each proved to do what Setup and LinkStep describe.
  */
module Linker {
  import opened RuntimeTypes
  import opened MethodLists
  import opened Hierarchy
  import opened ObjcRuntime

  /** The superclass of x as the record stores it, when there is one and it exists. */
  predicate HasSuper(recs: Records, x: ClassId) {
    x in recs && recs[x].superclass.Some? && recs[x].superclass.value in recs
  }

  /**
    * add_subclass: append x to the Nil-terminated subclass list of its
    * superclass, creating the list when it is NULL. The entries grow by x
    * and the list stays terminated.
    */
  method AddSubclass(rt: Runtime, x: ClassId)
    requires HasSuper(rt.recs, x)
    requires Terminated(rt.recs[rt.recs[x].superclass.value].subclassList)
    modifies rt`recs
    ensures var s := old(rt.recs[x].superclass.value);
            rt.recs == old(rt.recs)[s := old(rt.recs[s]).(subclassList := AppendEntry(old(rt.recs[s].subclassList), x))]
    ensures var s := old(rt.recs[x].superclass.value);
            Terminated(rt.recs[s].subclassList) &&
            Entries(rt.recs[s].subclassList) == old(Entries(rt.recs[s].subclassList)) + [x]
  {
    var s := rt.recs[x].superclass.value;
    var list := rt.recs[s].subclassList;
    AppendEntryEntries(list, x);
    if list.None? {
      rt.recs := rt.recs[s := rt.recs[s].(subclassList := Some([Some(x), None]))];
      return;
    }
    var l := list.value;
    var i := 0;
    while l[i] != None
      invariant 0 <= i < |l|
      invariant forall j :: 0 <= j < i ==> l[j].Some?
      decreases |l| - i
    {
      i := i + 1;
    }
    TakeEntriesOfSome(l[..i], l[i..]);
    assert l[..i] + l[i..] == l;
    rt.recs := rt.recs[s := rt.recs[s].(subclassList := Some(l[..i] + [Some(x), None]))];
  }

  /** The loop of setup_class that moves every ivar, and its mirror in ivar_offsets, by slide. */
  method SlideIvarList(ivars: seq<Ivar>, offs: seq<U32Val>, slide: int) returns (ivars': seq<Ivar>, offs': seq<U32Val>)
    requires |offs| == |ivars|
    ensures ivars' == SlideIvars(ivars, slide)
    ensures offs' == SlideOffsets(offs, slide)
  {
    ivars' := ivars;
    offs' := offs;
    var i := 0;
    while i < |ivars|
      invariant 0 <= i <= |ivars| && |ivars'| == |ivars| && |offs'| == |offs|
      invariant forall j :: 0 <= j < i ==> ivars'[j] == ivars[j].(offset := Wrap(ivars[j].offset + slide))
      invariant forall j :: i <= j < |ivars| ==> ivars'[j] == ivars[j]
      invariant forall j :: 0 <= j < i ==> offs'[j] == Wrap(offs[j] + slide)
      invariant forall j :: i <= j < |offs| ==> offs'[j] == offs[j]
    {
      ivars' := ivars'[i := ivars'[i].(offset := Wrap(ivars'[i].offset + slide))];
      offs' := offs'[i := Wrap(offs'[i] + slide)];
      i := i + 1;
    }
  }

  /** Two ints that agree modulo 2^32 are stored as the same word. */
  lemma WrapCongruent(a: int, b: int)
    requires (a - b) % U32 == 0
    ensures Wrap(a) == Wrap(b)
  {
    var k := (a - b) / U32;
    assert a == b + k * U32;
    assert (b + k * U32) % U32 == b % U32;
  }

  /** Negating the size into a word and then adding the slide equals adding the slide to the negated size. */
  lemma NegateThenAdd(size: U32Val, slide: int)
    ensures Wrap(ToInt32(Wrap(-ToInt32(size))) + slide) == Wrap(-ToInt32(size) + slide)
  {
    var a := -ToInt32(size);
    assert (ToInt32(Wrap(a)) - Wrap(a)) % U32 == 0;
    assert (Wrap(a) - a) % U32 == 0;
    assert (ToInt32(Wrap(a)) + slide - (a + slide)) % U32 == 0 by {
      var k1 := (ToInt32(Wrap(a)) - Wrap(a)) / U32;
      var k2 := (Wrap(a) - a) / U32;
      assert ToInt32(Wrap(a)) - a == (k1 + k2) * U32;
    }
    WrapCongruent(ToInt32(Wrap(a)) + slide, a + slide);
  }

  /** The record of c with its size and ivars as linking leaves them, the superclass size being superSize. */
  function Slid(r: ClassRec, superSize: Option<U32Val>): (s: ClassRec)
    ensures LinkedRecord(r, if r.superclass.Some? then r.superclass else None, superSize) ==
            s.(info := SetFlag(r.info, SETUP))
  {
    var l := LinkedRecord(r, None, superSize);
    r.(instanceSize := l.instanceSize, ivars := l.ivars, ivarOffsets := l.ivarOffsets)
  }

  /**
    * The size and ivar part of setup_class: negate the stored size back to
    * the declared one, read the superclass's size as the slide, grow it by
    * a negative first ivar offset, move the ivars when the slide is nonzero
    * and add the slide to the size.
    */
  method SlideClass(rt: Runtime, c: ClassId)
    requires c in rt.recs && (rt.recs[c].superclass.Some? ==> rt.recs[c].superclass.value in rt.recs)
    requires rt.recs[c].ivars.Some? ==> |rt.recs[c].ivarOffsets| == |rt.recs[c].ivars.value|
    modifies rt`recs
    ensures rt.recs == old(rt.recs)[c := Slid(old(rt.recs[c]), old(SuperSize(rt.recs, rt.recs[c].superclass)))]
  {
    var r := rt.recs[c];
    var size := Wrap(-ToInt32(r.instanceSize));
    var superSize: Option<U32Val> := None;
    var slide := 0;
    if r.superclass.Some? {
      superSize := Some(rt.recs[r.superclass.value].instanceSize);
      slide := ToInt32(superSize.value);
    }
    var ivars := r.ivars;
    var offs := r.ivarOffsets;
    if slide != 0 && ivars.Some? {
      if |ivars.value| > 0 && ToInt32(ivars.value[0].offset) < 0 {
        slide := slide - ToInt32(ivars.value[0].offset);
      }
      var moved;
      moved, offs := SlideIvarList(ivars.value, offs, slide);
      ivars := Some(moved);
    }
    NegateThenAdd(r.instanceSize, slide);
    size := Wrap(ToInt32(size) + slide);
    assert slide == SlideOf(superSize, r.ivars);
    assert IvarsMove(superSize, r.ivars) <==> ToInt32(if superSize.Some? then superSize.value else 0) != 0 && r.ivars.Some?;
    assert superSize == SuperSize(rt.recs, r.superclass);
    ghost var l := LinkedRecord(r, None, superSize);
    assert size == l.instanceSize && ivars == l.ivars && offs == l.ivarOffsets;
    rt.recs := rt.recs[c := r.(instanceSize := size, ivars := ivars, ivarOffsets := offs)];
  }

  /** Linking keeps the method chains of every record, so the chain invariant. */
  lemma RelinkKeepsChains(recs: Records, r: Records, batches: Batches, cats: map<string, seq<Category>>)
    requires ChainsOk(recs, batches, cats)
    requires r.Keys == recs.Keys
    requires forall x {:trigger r[x]} :: x in recs ==> SameIdentity(recs[x], r[x])
    ensures ChainsOk(r, batches, cats)
  {
    forall x | x in r
      ensures ChainIn(batches, r[x].methodlist)
    {
      assert SameIdentity(recs[x], r[x]);
    }
  }

  /** Linking keeps the set of records, so the dispatch-table invariant. */
  lemma RelinkKeepsDtables(recs: Records, r: Records, dtableOf: map<ClassId, DtId>, dtables: map<DtId, Table>, nextDt: DtId)
    requires DtablesOk(recs, dtableOf, dtables, nextDt) && r.Keys == recs.Keys
    ensures DtablesOk(r, dtableOf, dtables, nextDt)
  {
  }

  /** An unlinked class, its metaclass, the class its superclass name is bound to and that class's metaclass are four records. */
  lemma SuperDistinct(names: Names, recs: Records, reg: set<ClassId>, rank: ClassId -> nat, c: ClassId, d: ClassId)
    requires Ok(names, recs, reg, rank) && IsClass(recs, c)
    requires recs[c].superName.Some? && recs[c].superName.value in names && d == names[recs[c].superName.value]
    requires !Has(recs[c].info, SETUP)
    ensures Distinct4(recs, c, Some(d))
  {
    assert RecOk(recs, reg, rank, c) && ClassOk(recs, reg, rank, c);
    assert NameEdgeOk(recs, rank, c, d);
    assert RecOk(recs, reg, rank, d) && ClassOk(recs, reg, rank, d);
  }

  /** Records that keep identities keep Distinct4. */
  lemma Distinct4Kept(recs: Records, r: Records, c: ClassId, sup: Option<ClassId>)
    requires Distinct4(recs, c, sup) && r.Keys == recs.Keys
    requires forall x {:trigger r[x]} :: x in recs ==> SameIdentity(recs[x], r[x])
    ensures Distinct4(r, c, sup)
  {
    assert SameIdentity(recs[c], r[c]);
    if sup.Some? {
      assert SameIdentity(recs[sup.value], r[sup.value]);
    }
  }

  /** LinkShape determines the records completely. */
  lemma LinkShapeUnique(recs: Records, r: Records, r': Records, c: ClassId, sup: Option<ClassId>)
    requires Distinct4(recs, c, sup) && LinkShape(recs, r, c, sup) && LinkShape(recs, r', c, sup)
    ensures r == r'
  {
    forall x | x in r
      ensures r[x] == r'[x]
    {
    }
  }

  /** Linking reads the superclass from its argument, not from the record's own pointer. */
  lemma LinkedRecordSuper(r: ClassRec, sup: Option<ClassId>, superSize: Option<U32Val>)
    requires r.superclass.None?
    ensures Slid(r.(superclass := sup), superSize).(info := SetFlag(r.info, SETUP)) == LinkedRecord(r, sup, superSize)
  {
    assert Slid(r.(superclass := sup), superSize) == Slid(r, superSize).(superclass := sup);
  }

  /**
    * The first writes setup_class makes to link c below sup: the superclass
    * pointers of c and of its metaclass, then the two add_subclass calls.
    */
  method LinkPointers(rt: Runtime, c: ClassId, sup: Option<ClassId>)
    requires Distinct4(rt.recs, c, sup)
    requires rt.recs[c].superclass.None?
    requires sup.Some? ==> Terminated(rt.recs[sup.value].subclassList) && Terminated(rt.recs[rt.recs[sup.value].meta].subclassList)
    modifies rt`recs
    ensures rt.recs.Keys == old(rt.recs).Keys
    ensures rt.recs[c] == old(rt.recs[c]).(superclass := sup)
    ensures var m := old(rt.recs[c].meta);
            rt.recs[m] == old(rt.recs[m]).(superclass := Some(if sup.None? then c else old(rt.recs[sup.value].meta)))
    ensures sup.Some? ==> rt.recs[sup.value] == old(rt.recs[sup.value]).(subclassList := AppendEntry(old(rt.recs[sup.value].subclassList), c))
    ensures sup.Some? ==>
              var ms := old(rt.recs[sup.value].meta);
              rt.recs[ms] == old(rt.recs[ms]).(subclassList := AppendEntry(old(rt.recs[ms].subclassList), old(rt.recs[c].meta)))
    ensures forall x {:trigger rt.recs[x]} ::
              (x in old(rt.recs) && x != c && x != old(rt.recs[c].meta) &&
               (sup.Some? ==> x != sup.value && x != old(rt.recs[sup.value].meta))) ==> rt.recs[x] == old(rt.recs[x])
  {
    var m := rt.recs[c].meta;
    if sup.Some? {
      var d := sup.value;
      rt.recs := rt.recs[c := rt.recs[c].(superclass := Some(d))];
      rt.recs := rt.recs[m := rt.recs[m].(superclass := Some(rt.recs[d].meta))];
      AddSubclass(rt, c);
      AddSubclass(rt, m);
    } else {
      rt.recs := rt.recs[m := rt.recs[m].(superclass := Some(c))];
    }
  }

  /**
    * All writes setup_class makes to link c below sup: the pointers and
    * subclass lists, the size and ivar slide, and SETUP on the class and its
    * metaclass.
    */
  method LinkWrites(rt: Runtime, c: ClassId, sup: Option<ClassId>)
    requires Distinct4(rt.recs, c, sup)
    requires rt.recs[c].superclass.None?
    requires rt.recs[c].ivars.Some? ==> |rt.recs[c].ivarOffsets| == |rt.recs[c].ivars.value|
    requires sup.Some? ==> Terminated(rt.recs[sup.value].subclassList) && Terminated(rt.recs[rt.recs[sup.value].meta].subclassList)
    modifies rt`recs
    ensures LinkShape(old(rt.recs), rt.recs, c, sup)
  {
    ghost var recs0 := rt.recs;
    var m := rt.recs[c].meta;
    ghost var superSize := if sup.Some? then Some(recs0[sup.value].instanceSize) else None;
    LinkPointers(rt, c, sup);
    assert SuperSize(rt.recs, rt.recs[c].superclass) == superSize;
    SlideClass(rt, c);
    LinkedRecordSuper(recs0[c], sup, superSize);
    rt.recs := rt.recs[c := rt.recs[c].(info := SetFlag(rt.recs[c].info, SETUP))];
    rt.recs := rt.recs[m := rt.recs[m].(info := SetFlag(rt.recs[m].info, SETUP))];
  }

  /** What setup_class leaves of the runtime invariant's parts about records: they hold of the new records too. */
  lemma SetupKeepsValid(names: Names, recs: Records, reg: set<ClassId>, rank: ClassId -> nat, bound: nat, c: ClassId,
                        batches: Batches, cats: map<string, seq<Category>>, dtableOf: map<ClassId, DtId>, dtables: map<DtId, Table>, nextDt: DtId)
    requires Ok(names, recs, reg, rank) && IsClass(recs, c) && c in reg
    requires ChainsOk(recs, batches, cats) && DtablesOk(recs, dtableOf, dtables, nextDt) && RanksBelow(recs, rank, bound)
    ensures var r := Setup(names, recs, reg, rank, c);
            && Ok(names, r, reg, rank) && ChainsOk(r, batches, cats) && DtablesOk(r, dtableOf, dtables, nextDt) && RanksBelow(r, rank, bound)
  {
    var r := Setup(names, recs, reg, rank, c);
    SetupSpec(names, recs, reg, rank, c);
    RelinkKeepsChains(recs, r, batches, cats);
    RelinkKeepsDtables(recs, r, dtableOf, dtables, nextDt);
  }

  /** The state setup_class starts from, as far as the runtime invariant's record parts go. */
  ghost predicate ValidFrom(rt: Runtime, names: Names, recs0: Records, reg: set<ClassId>)
    reads rt`table, rt`batches, rt`nextBatch, rt`cats, rt`dtableOf, rt`dtables, rt`nextDt
  {
    && rt.Names() == names && rt.Registered() == reg && Ok(names, recs0, reg, rt.rank)
    && ChainsOk(recs0, rt.batches, rt.cats) && DtablesOk(recs0, rt.dtableOf, rt.dtables, rt.nextDt)
    && BatchesBelow(rt.batches, rt.nextBatch) && RanksBelow(recs0, rt.rank, rt.bound)
  }

  /** Records that setup_class made from a valid state leave the runtime valid. */
  lemma SetupValid(rt: Runtime, names: Names, recs0: Records, reg: set<ClassId>, c: ClassId)
    requires ValidFrom(rt, names, recs0, reg) && IsClass(recs0, c) && c in reg
    requires rt.recs == Setup(names, recs0, reg, rt.rank, c)
    ensures rt.Valid()
  {
    SetupKeepsValid(names, recs0, reg, rt.rank, rt.bound, c, rt.batches, rt.cats, rt.dtableOf, rt.dtables, rt.nextDt);
  }

  /** setup_class on a root class: link it with no superclass. */
  method LinkRoot(rt: Runtime, c: ClassId, ghost names: Names, ghost reg: set<ClassId>)
    requires rt.Valid() && rt.Names() == names && rt.Registered() == reg
    requires IsClass(rt.recs, c) && c in reg && !Has(rt.recs[c].info, SETUP) && rt.recs[c].superName.None?
    modifies rt`recs
    ensures rt.Valid()
    ensures rt.recs == Setup(names, old(rt.recs), reg, rt.rank, c)
  {
    ghost var recs0, rank := rt.recs, rt.rank;
    assert RecOk(recs0, reg, rank, c) && ClassOk(recs0, reg, rank, c);
    assert CanLink(names, recs0, reg, rank, c, None);
    LinkDistinct(names, recs0, reg, rank, c, None);
    LinkWrites(rt, c, None);
    LinkStepShape(recs0, c, None);
    LinkShapeUnique(recs0, rt.recs, LinkStep(recs0, c, None), c, None);
    SetupValid(rt, names, recs0, reg, c);
  }

  /**
    * The tail of setup_class once the superclass d, bound to c's superclass
    * name, is linked: link c under d.
    */
  method LinkUnder(rt: Runtime, c: ClassId, d: ClassId, ghost names: Names, ghost recs0: Records, ghost reg: set<ClassId>)
    requires Ok(names, recs0, reg, rt.rank) && IsClass(recs0, c) && c in reg && !Has(recs0[c].info, SETUP)
    requires recs0[c].superName.Some? && recs0[c].superName.value in names && d == names[recs0[c].superName.value]
    requires IsClass(recs0, d) && d in reg && rt.rank(d) < rt.rank(c)
    requires rt.recs == Setup(names, recs0, reg, rt.rank, d) && Has(rt.recs[d].info, SETUP)
    modifies rt`recs
    ensures rt.recs == Setup(names, recs0, reg, rt.rank, c)
  {
    ghost var rank := rt.rank;
    ghost var r1 := rt.recs;
    SetupUnfold(names, recs0, reg, rank, c, d);
    SetupSpec(names, recs0, reg, rank, d);
    assert SetupRel(names, recs0, r1, Linking(names, recs0, reg, rank, d), c);
    SetupCanLink(names, recs0, reg, rank, c, d, r1, Linking(names, recs0, reg, rank, d));
    LinkDistinct(names, r1, reg, rank, c, Some(d));
    assert RecOk(r1, reg, rank, c) && ClassOk(r1, reg, rank, c);
    assert RecOk(r1, reg, rank, d) && RecOk(r1, reg, rank, r1[d].meta);
    LinkWrites(rt, c, Some(d));
    LinkStepShape(r1, c, Some(d));
    LinkShapeUnique(r1, rt.recs, LinkStep(r1, c, Some(d)), c, Some(d));
  }

  /**
    * setup_class: link c, after linking its superclass (resolved through the
    * class table) when it has one. Does nothing when c is linked already,
    * when its superclass name is not bound, or when the superclass could not
    * be linked. The records end up as Setup says, and the invariants hold.
    */
  method SetupClass(rt: Runtime, c: ClassId)
    requires rt.Valid() && IsClass(rt.recs, c) && c in rt.Registered()
    modifies rt`recs
    ensures rt.Valid()
    ensures rt.recs == Setup(old(rt.Names()), old(rt.recs), old(rt.Registered()), rt.rank, c)
    decreases rt.rank(c)
  {
    ghost var names, recs0, reg, rank := rt.Names(), rt.recs, rt.Registered(), rt.rank;
    if Has(rt.recs[c].info, SETUP) {
      return;
    }
    if rt.recs[c].superName.None? {
      LinkRoot(rt, c, names, reg);
      return;
    }
    var sup := rt.ClassNameToClass(rt.recs[c].superName.value);
    if sup.None? {
      return;
    }
    var d := sup.value;
    assert RecOk(recs0, reg, rank, c) && ClassOk(recs0, reg, rank, c);
    assert NameEdgeOk(recs0, rank, c, d);
    assert ValidFrom(rt, names, recs0, reg);
    SetupClass(rt, d);
    SetupUnfold(names, recs0, reg, rank, c, d);
    if !Has(rt.recs[d].info, SETUP) {
      return;
    }
    LinkUnder(rt, c, d, names, recs0, reg);
    SetupValid(rt, names, recs0, reg, c);
  }

  /**
    * objc_lookup_class: the class bound to name, linked on demand; Nil
    * (None) when the name is unbound or the class cannot be linked because
    * some superclass name along the way is unbound.
    */
  method LookupClass(rt: Runtime, name: string) returns (cls: Option<ClassId>)
    requires rt.Valid()
    modifies rt`recs
    ensures rt.Valid()
    ensures name !in old(rt.Names()) ==> cls.None? && rt.recs == old(rt.recs)
    ensures name in old(rt.Names()) ==>
              var c := old(rt.Names())[name];
              && IsClass(old(rt.recs), c) && c in old(rt.Registered())
              && rt.recs == Setup(old(rt.Names()), old(rt.recs), old(rt.Registered()), rt.rank, c)
              && (cls.Some? <==> Linkable(old(rt.Names()), old(rt.recs), old(rt.Registered()), rt.rank, c))
              && (cls.Some? ==> cls.value == c && Flag(rt.recs, c, SETUP))
  {
    ghost var names, recs0, reg := rt.Names(), rt.recs, rt.Registered();
    var c := rt.ClassNameToClass(name);
    if c.None? {
      return None;
    }
    var k := c.value;
    if Has(rt.recs[k].info, SETUP) {
      return c;
    }
    SetupClass(rt, k);
    SetupLinks(names, recs0, reg, rt.rank, k);
    if !Has(rt.recs[k].info, SETUP) {
      return None;
    }
    return c;
  }

  // ---------------------------------------------------------------------
  // Superclass-name cycles

  /**
    * The records setup_class(c) enters, as written and without a rank: c,
    * then, when c is unlinked and its superclass name is bound, those of
    * setup_class on the class the name is bound to. fuel bounds the depth
    * of the recursion; None when it runs out before the recursion returns.
    */
  function SetupCalls(names: Names, recs: Records, c: ClassId, fuel: nat): (r: Option<seq<ClassId>>)
    ensures r.Some? ==> 0 < |r.value| <= fuel && r.value[0] == c
    decreases fuel
  {
    if fuel == 0 then None
    else if c !in recs || Has(recs[c].info, SETUP) || recs[c].superName.None? || recs[c].superName.value !in names then Some([c])
    else
      match SetupCalls(names, recs, names[recs[c].superName.value], fuel - 1)
      case None => None
      case Some(s) => Some([c] + s)
  }

  /** Unlinked classes whose bound superclass names lead back among themselves. */
  predicate NameCycle(names: Names, recs: Records, S: set<ClassId>) {
    forall x {:trigger x in S} :: x in S ==>
      && x in recs && !Has(recs[x].info, SETUP) && recs[x].superName.Some?
      && recs[x].superName.value in names && names[recs[x].superName.value] in S
  }

  /**
    * As written: register_class binds any name, so a class whose superclass
    * name is its own name (or two that name each other) closes a cycle, and
    * setup_class on it never returns, whatever depth is allowed.
    */
  lemma {:induction false} CycleNeverReturns(names: Names, recs: Records, S: set<ClassId>, c: ClassId, fuel: nat)
    requires NameCycle(names, recs, S) && c in S
    ensures SetupCalls(names, recs, c, fuel).None?
    decreases fuel
  {
    if fuel > 0 {
      CycleNeverReturns(names, recs, S, names[recs[c].superName.value], fuel - 1);
    }
  }

  /** A class whose superclass name is its own name is a cycle on its own. */
  lemma SelfNamedCycle(names: Names, recs: Records, c: ClassId)
    requires c in recs && !Has(recs[c].info, SETUP) && recs[c].superName == Some(recs[c].name)
    requires recs[c].name in names && names[recs[c].name] == c
    ensures NameCycle(names, recs, {c})
  {
  }

  /** More fuel does not change a recursion that returned. */
  lemma {:induction false} SetupCallsFuel(names: Names, recs: Records, c: ClassId, fuel: nat, more: nat)
    requires SetupCalls(names, recs, c, fuel).Some? && fuel <= more
    ensures SetupCalls(names, recs, c, more) == SetupCalls(names, recs, c, fuel)
    decreases fuel
  {
    if !(c !in recs || Has(recs[c].info, SETUP) || recs[c].superName.None? || recs[c].superName.value !in names) {
      SetupCallsFuel(names, recs, names[recs[c].superName.value], fuel - 1, more - 1);
    }
  }

  /**
    * As intended: with every bound superclass name ranked below its class
    * (what RankedBinding asks of a registration), setup_class's recursion
    * returns within rank(c) + 1 calls.
    */
  lemma {:induction false} RankedSetupReturns(names: Names, recs: Records, reg: set<ClassId>, rank: ClassId -> nat, c: ClassId)
    requires Ok(names, recs, reg, rank) && IsClass(recs, c)
    ensures SetupCalls(names, recs, c, rank(c) + 1).Some?
    decreases rank(c)
  {
    if !(Has(recs[c].info, SETUP) || recs[c].superName.None? || recs[c].superName.value !in names) {
      var d := names[recs[c].superName.value];
      assert IsClass(recs, d) && NameEdgeOk(recs, rank, c, d);
      RankedSetupReturns(names, recs, reg, rank, d);
      SetupCallsFuel(names, recs, d, rank(d) + 1, rank(c));
    }
  }

  /**
    * The recursion as evidently intended: the classes already entered are
    * carried along, and reaching one of them again refuses the cycle with
    * None instead of recursing. It always returns.
    */
  function SetupCallsChecked(names: Names, recs: Records, c: ClassId, visited: set<ClassId>): (r: Option<seq<ClassId>>)
    ensures r.Some? ==> 0 < |r.value| && r.value[0] == c
    decreases recs.Keys - visited
  {
    if c !in recs || Has(recs[c].info, SETUP) || recs[c].superName.None? || recs[c].superName.value !in names then Some([c])
    else if c in visited then None
    else
      match SetupCallsChecked(names, recs, names[recs[c].superName.value], visited + {c})
      case None => None
      case Some(s) => Some([c] + s)
  }

  /** Corrected: on a cycle of superclass names the checked recursion returns, refusing the class. */
  lemma {:induction false} CheckedRefusesCycle(names: Names, recs: Records, S: set<ClassId>, c: ClassId, visited: set<ClassId>)
    requires NameCycle(names, recs, S) && c in S
    ensures SetupCallsChecked(names, recs, c, visited) == None
    decreases recs.Keys - visited
  {
    if c !in visited {
      CheckedRefusesCycle(names, recs, S, names[recs[c].superName.value], visited + {c});
    }
  }

  /**
    * Corrected: with every bound name ranked below its class, no cycle can
    * be met, and the checked recursion enters exactly the classes the
    * recursion as written enters.
    */
  lemma {:induction false} CheckedAgrees(names: Names, recs: Records, reg: set<ClassId>, rank: ClassId -> nat, c: ClassId,
                                         visited: set<ClassId>)
    requires Ok(names, recs, reg, rank) && IsClass(recs, c)
    requires forall v :: v in visited ==> rank(c) < rank(v)
    ensures SetupCallsChecked(names, recs, c, visited) == SetupCalls(names, recs, c, rank(c) + 1)
    decreases rank(c)
  {
    if !(Has(recs[c].info, SETUP) || recs[c].superName.None? || recs[c].superName.value !in names) {
      var d := names[recs[c].superName.value];
      assert IsClass(recs, d) && NameEdgeOk(recs, rank, c, d);
      assert c !in visited;
      CheckedAgrees(names, recs, reg, rank, d, visited + {c});
      RankedSetupReturns(names, recs, reg, rank, d);
      SetupCallsFuel(names, recs, d, rank(d) + 1, rank(c));
    }
  }

  /** A registration that binds a class's own superclass name to it is exactly what RankedBinding refuses. */
  lemma SelfNamedNotRanked(recs: Records, rank: ClassId -> nat, c: ClassId)
    requires IsClass(recs, c) && !Has(recs[c].info, SETUP) && recs[c].superName == Some(recs[c].name)
    ensures !RankedBinding(recs, rank, recs[c].name, c)
  {
    assert !NameEdgeOk(recs, rank, c, c);
  }
}
