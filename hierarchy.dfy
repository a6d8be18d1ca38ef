/**
  * The class hierarchy as a graph of records: subclass lists, the
  * invariants the runtime keeps over its records and class table, the
  * resolution of superclass names (`Linkable`) and the effect of
  * `setup_class` (`Setup`, built from one linking step `LinkStep`).
  *
  * `rank` is a ghost measure on records: a superclass, an unresolved
  * superclass name of an unlinked class, and a subclass-list entry point to
  * a record of smaller resp. larger rank, and a metaclass ranks above its
  * class. It stands for the acyclicity the runtime relies on.
  */
module Hierarchy {
  import opened RuntimeTypes

  type Records = map<ClassId, ClassRec>
  type Names = map<string, ClassId>

  // ---------------------------------------------------------------------
  // Nil-terminated subclass lists

  /** The entries before the first Nil. */
  function TakeEntries(s: seq<Option<ClassId>>): (r: seq<ClassId>)
    ensures |r| <= |s|
    ensures forall i :: 0 <= i < |r| ==> s[i] == Some(r[i])
    ensures |r| < |s| ==> s[|r|] == None
  {
    if s == [] || s[0].None? then [] else [s[0].value] + TakeEntries(s[1..])
  }

  function Entries(l: Option<seq<Option<ClassId>>>): seq<ClassId> {
    if l.None? then [] else TakeEntries(l.value)
  }

  /** NULL, or entries followed by exactly one Nil. */
  predicate Terminated(l: Option<seq<Option<ClassId>>>) {
    l.None? ||
    (|l.value| > 0 && l.value[|l.value| - 1].None? && forall i :: 0 <= i < |l.value| - 1 ==> l.value[i].Some?)
  }

  /** add_subclass on the list value: store x over the Nil and a new Nil behind it. */
  function AppendEntry(l: Option<seq<Option<ClassId>>>, x: ClassId): Option<seq<Option<ClassId>>> {
    if l.None? then Some([Some(x), None])
    else Some(l.value[..|TakeEntries(l.value)|] + [Some(x), None])
  }

  lemma {:induction false} TakeEntriesOfSome(pre: seq<Option<ClassId>>, tail: seq<Option<ClassId>>)
    requires forall i :: 0 <= i < |pre| ==> pre[i].Some?
    requires tail == [] || tail[0].None?
    ensures |TakeEntries(pre + tail)| == |pre|
  {
    if pre != [] {
      assert (pre + tail)[1..] == pre[1..] + tail;
      TakeEntriesOfSome(pre[1..], tail);
    } else {
      assert pre + tail == tail;
    }
  }

  /** Appending keeps the prior entries in order, adds x last, and keeps the list terminated. */
  lemma AppendEntryEntries(l: Option<seq<Option<ClassId>>>, x: ClassId)
    requires Terminated(l)
    ensures Terminated(AppendEntry(l, x))
    ensures Entries(AppendEntry(l, x)) == Entries(l) + [x]
  {
    var l' := AppendEntry(l, x);
    if l.None? {
      assert TakeEntries([Some(x), None]) == [x] + TakeEntries([None]);
    } else {
      var s := l.value;
      var pre := s[..|TakeEntries(s)|];
      assert |TakeEntries(s)| == |s| - 1;
      TakeEntriesOfSome(pre + [Some(x)], [None]);
      assert pre + [Some(x), None] == (pre + [Some(x)]) + [None];
      var t := TakeEntries(l'.value);
      assert |t| == |s|;
      assert t == TakeEntries(s) + [x];
    }
  }

  // ---------------------------------------------------------------------
  // Records

  predicate Flag(recs: Records, c: ClassId, f: Info) {
    c in recs && Has(recs[c].info, f)
  }

  predicate IsClass(recs: Records, c: ClassId) {
    Flag(recs, c, CLASS)
  }

  predicate IsMetaclass(recs: Records, c: ClassId) {
    Flag(recs, c, METACLASS) && !Has(recs[c].info, CLASS)
  }

  /** The parts of a record that neither linking nor dispatch ever change. */
  predicate SameIdentity(a: ClassRec, b: ClassRec) {
    a.name == b.name && a.superName == b.superName && a.meta == b.meta && a.methodlist == b.methodlist &&
    Has(a.info, CLASS) == Has(b.info, CLASS) && Has(a.info, METACLASS) == Has(b.info, METACLASS)
  }

  /** A superclass pointer: to a registered record of smaller rank, linked whenever the pointing record is. */
  ghost predicate SuperOk(recs: Records, reg: set<ClassId>, rank: ClassId -> nat, c: ClassId, s: ClassId)
    requires c in recs
  {
    s in recs && s in reg && rank(s) < rank(c) && (Has(recs[c].info, SETUP) ==> Has(recs[s].info, SETUP))
  }

  /** What holds of a class record and its metaclass. */
  ghost predicate ClassOk(recs: Records, reg: set<ClassId>, rank: ClassId -> nat, c: ClassId)
    requires c in recs
  {
    var r := recs[c];
    var m := r.meta;
    && !Has(r.info, METACLASS)
    && IsMetaclass(recs, m)
    && rank(c) < rank(m)
    && (c in reg <==> m in reg)
    && (Has(r.info, SETUP) <==> Has(recs[m].info, SETUP))
    && (!Has(r.info, SETUP) ==> r.superclass.None?)
    && (r.superclass.Some? ==> IsClass(recs, r.superclass.value))
    && (Has(r.info, SETUP) ==>
          recs[m].superclass == Some(if r.superclass.None? then c else recs[r.superclass.value].meta))
  }

  /** What holds of every record. */
  ghost predicate RecOk(recs: Records, reg: set<ClassId>, rank: ClassId -> nat, c: ClassId)
    requires c in recs
  {
    var r := recs[c];
    && (r.superclass.Some? ==> SuperOk(recs, reg, rank, c, r.superclass.value))
    && (Has(r.info, SETUP) ==> c in reg)
    && (Has(r.info, DTABLE) ==> Has(r.info, SETUP))
    && Terminated(r.subclassList)
    && (forall y {:trigger y in Entries(r.subclassList)} :: y in Entries(r.subclassList) ==> y in recs && rank(c) < rank(y))
    && (r.ivars.Some? ==> |r.ivarOffsets| == |r.ivars.value|)
    && (Has(r.info, CLASS) ==> ClassOk(recs, reg, rank, c))
  }

  /** The metaclass of record c. */
  function MetaOf(recs: Records, c: ClassId): (m: ClassId)
    requires c in recs
    ensures m == recs[c].meta
  {
    recs[c].meta
  }

  /** No two classes share a metaclass (instantiated only where a proof names MetaOf). */
  predicate MetasDistinct(recs: Records) {
    forall c1, c2 {:trigger MetaOf(recs, c1), MetaOf(recs, c2)} ::
      c1 in recs && c2 in recs && IsClass(recs, c1) && IsClass(recs, c2) && MetaOf(recs, c1) == MetaOf(recs, c2) ==> c1 == c2
  }

  ghost predicate RecordsOk(recs: Records, reg: set<ClassId>, rank: ClassId -> nat) {
    (forall c {:trigger RecOk(recs, reg, rank, c)} :: c in recs ==> RecOk(recs, reg, rank, c)) && MetasDistinct(recs)
  }

  /** The superclass name of an unlinked class, when bound, names a class of smaller rank, and likewise for the metaclasses. */
  ghost predicate NameEdgeOk(recs: Records, rank: ClassId -> nat, c: ClassId, d: ClassId)
    requires c in recs && d in recs
  {
    rank(d) < rank(c) && rank(recs[d].meta) < rank(recs[c].meta)
  }

  /** The class table binds names to registered classes only. */
  ghost predicate NamesOk(names: Names, recs: Records, reg: set<ClassId>, rank: ClassId -> nat) {
    && (forall n {:trigger names[n]} :: n in names ==> IsClass(recs, names[n]) && names[n] in reg)
    && (forall c {:trigger recs[c].superName} :: (IsClass(recs, c) && !Has(recs[c].info, SETUP) && recs[c].superName.Some? &&
                     recs[c].superName.value in names) ==>
                    NameEdgeOk(recs, rank, c, names[recs[c].superName.value]))
  }

  ghost predicate Ok(names: Names, recs: Records, reg: set<ClassId>, rank: ClassId -> nat) {
    RecordsOk(recs, reg, rank) && NamesOk(names, recs, reg, rank)
  }

  // ---------------------------------------------------------------------
  // The instance-size and ivar slide of setup_class

  /** Offsets moved by the slide, each stored back into a 32-bit word. */
  function SlideOffsets(offs: seq<U32Val>, slide: int): (r: seq<U32Val>)
    ensures |r| == |offs| && forall i :: 0 <= i < |r| ==> r[i] == Wrap(offs[i] + slide)
  {
    if offs == [] then [] else [Wrap(offs[0] + slide)] + SlideOffsets(offs[1..], slide)
  }

  function SlideIvars(ivars: seq<Ivar>, slide: int): (r: seq<Ivar>)
    ensures |r| == |ivars|
    ensures forall i :: 0 <= i < |r| ==>
              r[i] == ivars[i].(offset := Wrap(ivars[i].offset + slide))
  {
    if ivars == [] then []
    else [ivars[0].(offset := Wrap(ivars[0].offset + slide))] + SlideIvars(ivars[1..], slide)
  }

  /** The superclass size read as an `int`, grown by |offset| when the first own ivar has a negative offset. */
  function SlideOf(superSize: Option<U32Val>, ivars: Option<seq<Ivar>>): int {
    match superSize
    case None => 0
    case Some(sz) =>
      var s := ToInt32(sz);
      if s != 0 && ivars.Some? && |ivars.value| > 0 && ToInt32(ivars.value[0].offset) < 0
      then s - ToInt32(ivars.value[0].offset)
      else s
  }

  /** Whether the ivars move at all: only when the superclass size is nonzero and there is an ivar list. */
  predicate IvarsMove(superSize: Option<U32Val>, ivars: Option<seq<Ivar>>) {
    superSize.Some? && ToInt32(superSize.value) != 0 && ivars.Some?
  }

  /** A class record once linked below sup, whose instance size is superSize. */
  function LinkedRecord(r: ClassRec, sup: Option<ClassId>, superSize: Option<U32Val>): ClassRec {
    var slide := SlideOf(superSize, r.ivars);
    var moves := IvarsMove(superSize, r.ivars);
    r.(superclass := if sup.Some? then sup else r.superclass,
       instanceSize := Wrap(-ToInt32(r.instanceSize) + slide),
       ivars := if moves then Some(SlideIvars(r.ivars.value, slide)) else r.ivars,
       ivarOffsets := if moves then SlideOffsets(r.ivarOffsets, slide) else r.ivarOffsets,
       info := SetFlag(r.info, SETUP))
  }

  /** With no negative first offset and no overflow, the linked size is the declared size plus the superclass size. */
  lemma LinkedSizeAddsSuperSize(r: ClassRec, sup: Option<ClassId>, superSize: U32Val, declared: nat)
    requires declared < 0x8000_0000 && r.instanceSize == Wrap(-(declared as int))
    requires !(r.ivars.Some? && |r.ivars.value| > 0 && ToInt32(r.ivars.value[0].offset) < 0)
    requires 0 <= ToInt32(superSize) && declared + ToInt32(superSize) < 0x8000_0000
    ensures LinkedRecord(r, sup, Some(superSize)).instanceSize == declared + ToInt32(superSize)
  {
    ToInt32Wrap(-(declared as int));
  }

  /** A root class's size becomes its declared size. */
  lemma RootSizeIsDeclared(r: ClassRec, declared: nat)
    requires declared <= 0x8000_0000 && r.instanceSize == Wrap(-(declared as int))
    ensures LinkedRecord(r, None, None).instanceSize == declared
  {
    if declared < 0x8000_0000 {
      ToInt32Wrap(-(declared as int));
    } else {
      assert r.instanceSize == 0x8000_0000;
    }
  }

  /** The ivar_offsets mirror stays equal to the ivar offsets when it was equal before. */
  lemma LinkedMirrorAgrees(r: ClassRec, sup: Option<ClassId>, superSize: Option<U32Val>)
    requires r.ivars.Some? && |r.ivarOffsets| == |r.ivars.value|
    requires forall i :: 0 <= i < |r.ivarOffsets| ==> r.ivarOffsets[i] == r.ivars.value[i].offset
    ensures var l := LinkedRecord(r, sup, superSize);
            l.ivars.Some? && |l.ivarOffsets| == |l.ivars.value| &&
            forall i :: 0 <= i < |l.ivarOffsets| ==> l.ivarOffsets[i] == l.ivars.value[i].offset
  {
  }

  /** Every ivar moves by the same amount, and each moved offset differs from the old by the slide modulo 2^32. */
  lemma LinkedIvarsMoveTogether(r: ClassRec, sup: Option<ClassId>, superSize: Option<U32Val>)
    requires IvarsMove(superSize, r.ivars)
    ensures var l := LinkedRecord(r, sup, superSize);
            var slide := SlideOf(superSize, r.ivars);
            l.ivars.Some? && |l.ivars.value| == |r.ivars.value| &&
            forall i :: 0 <= i < |l.ivars.value| ==>
              l.ivars.value[i].name == r.ivars.value[i].name &&
              (l.ivars.value[i].offset - r.ivars.value[i].offset - slide) % U32 == 0
  {
  }

  // ---------------------------------------------------------------------
  // One linking step of setup_class

  /** The writes to c and its metaclass: superclass pointers, slide, SETUP. */
  function LinkPair(recs: Records, c: ClassId, sup: Option<ClassId>): (r: Records)
    requires c in recs && recs[c].meta in recs
    requires sup.Some? ==> sup.value in recs && recs[sup.value].meta in recs
    ensures r.Keys == recs.Keys
    ensures forall x {:trigger r[x]} :: x in recs ==> SameIdentity(recs[x], r[x])
  {
    var m := recs[c].meta;
    var superSize := if sup.Some? then Some(recs[sup.value].instanceSize) else None;
    var lc := LinkedRecord(recs[c], sup, superSize);
    var lm := recs[m].(superclass := Some(if sup.None? then c else recs[sup.value].meta),
                       info := SetFlag(recs[m].info, SETUP));
    recs[c := lc][m := lm]
  }

  /** The two add_subclass calls: c onto s's list, then m onto ms's list. */
  function AddBoth(recs: Records, s: ClassId, c: ClassId, ms: ClassId, m: ClassId): (r: Records)
    requires s in recs && ms in recs
    ensures r.Keys == recs.Keys
    ensures forall x {:trigger r[x]} :: x in recs ==> SameIdentity(recs[x], r[x])
  {
    var r1 := recs[s := recs[s].(subclassList := AppendEntry(recs[s].subclassList, c))];
    r1[ms := r1[ms].(subclassList := AppendEntry(r1[ms].subclassList, m))]
  }

  /**
    * Link c below sup (None for a root class): set the superclass pointers
    * of c and of its metaclass, append both to the superclass's and the
    * super-metaclass's subclass lists, slide the ivars and set SETUP on both.
    */
  function LinkStep(recs: Records, c: ClassId, sup: Option<ClassId>): (r: Records)
    requires c in recs && recs[c].meta in recs
    requires sup.Some? ==> sup.value in recs && recs[sup.value].meta in recs
    ensures r.Keys == recs.Keys
    ensures forall x {:trigger r[x]} :: x in recs ==> SameIdentity(recs[x], r[x])
  {
    var r1 := LinkPair(recs, c, sup);
    if sup.None? then r1 else AddBoth(r1, sup.value, c, recs[sup.value].meta, recs[c].meta)
  }

  /** What linking c may assume: c is an unlinked registered class and sup is its resolved, linked superclass. */
  ghost predicate CanLink(names: Names, recs: Records, reg: set<ClassId>, rank: ClassId -> nat, c: ClassId, sup: Option<ClassId>) {
    && Ok(names, recs, reg, rank)
    && IsClass(recs, c) && !Has(recs[c].info, SETUP) && c in reg
    && (sup.None? ==> recs[c].superName.None?)
    && (sup.Some? ==> recs[c].superName.Some? && recs[c].superName.value in names &&
                      names[recs[c].superName.value] == sup.value && Flag(recs, sup.value, SETUP))
  }

  /** The four records LinkStep writes are distinct, and exist. */
  lemma LinkDistinct(names: Names, recs: Records, reg: set<ClassId>, rank: ClassId -> nat, c: ClassId, sup: Option<ClassId>)
    requires CanLink(names, recs, reg, rank, c, sup)
    ensures Distinct4(recs, c, sup)
  {
    assert RecOk(recs, reg, rank, c) && ClassOk(recs, reg, rank, c);
    if sup.Some? {
      var s := sup.value;
      assert NameEdgeOk(recs, rank, c, s);
      assert RecOk(recs, reg, rank, s) && ClassOk(recs, reg, rank, s);
    }
  }

  /** c, its metaclass, its superclass and the super-metaclass are four different records. */
  predicate Distinct4(recs: Records, c: ClassId, sup: Option<ClassId>) {
    && c in recs && recs[c].meta in recs && recs[c].meta != c
    && (sup.Some? ==>
          var s := sup.value;
          var m := recs[c].meta;
          s in recs && recs[s].meta in recs &&
          s != c && s != m && recs[s].meta != m && recs[s].meta != c && recs[s].meta != s)
  }

  /** How the records r after linking c below sup relate to the records before: four are written, the rest kept. */
  ghost predicate LinkShape(recs: Records, r: Records, c: ClassId, sup: Option<ClassId>)
    requires Distinct4(recs, c, sup)
  {
    var m := recs[c].meta;
    && r.Keys == recs.Keys
    && r[c] == LinkedRecord(recs[c], sup, if sup.Some? then Some(recs[sup.value].instanceSize) else None)
    && r[m] == recs[m].(superclass := Some(if sup.None? then c else recs[sup.value].meta),
                        info := SetFlag(recs[m].info, SETUP))
    && (sup.Some? ==> r[sup.value] == recs[sup.value].(subclassList := AppendEntry(recs[sup.value].subclassList, c)))
    && (sup.Some? ==>
          r[recs[sup.value].meta] ==
          recs[recs[sup.value].meta].(subclassList := AppendEntry(recs[recs[sup.value].meta].subclassList, m)))
    && (forall x {:trigger r[x]} :: x in recs && x != c && x != m && (sup.Some? ==> x != sup.value && x != recs[sup.value].meta) ==>
          r[x] == recs[x])
  }

  lemma LinkStepShape(recs: Records, c: ClassId, sup: Option<ClassId>)
    requires Distinct4(recs, c, sup)
    ensures LinkShape(recs, LinkStep(recs, c, sup), c, sup)
  {
  }

  /** What linking keeps of a record: identity, the flags other than SETUP, and everything of the records it does not write. */
  lemma LinkFrame(recs: Records, r: Records, c: ClassId, sup: Option<ClassId>, x: ClassId)
    requires Distinct4(recs, c, sup) && LinkShape(recs, r, c, sup) && x in recs
    ensures && x in r
            && SameIdentity(recs[x], r[x])
            && (Has(recs[x].info, SETUP) ==> Has(r[x].info, SETUP))
            && (Has(r[x].info, SETUP) ==> Has(recs[x].info, SETUP) || x == c || x == recs[c].meta)
            && Has(r[x].info, DTABLE) == Has(recs[x].info, DTABLE)
            && (x != c && x != recs[c].meta ==> r[x] == recs[x].(subclassList := r[x].subclassList))
            && (x != c ==> r[x].ivars == recs[x].ivars && r[x].ivarOffsets == recs[x].ivarOffsets)
            && ((sup.None? || (x != sup.value && x != recs[sup.value].meta)) ==> r[x].subclassList == recs[x].subclassList)
  {
    var m := recs[c].meta;
    if x == c {
      var superSize := if sup.Some? then Some(recs[sup.value].instanceSize) else None;
      assert r[c] == LinkedRecord(recs[c], sup, superSize);
      assert r[c].info == SetFlag(recs[c].info, SETUP);
    } else if x == m {
      assert r[m].info == SetFlag(recs[m].info, SETUP);
    } else if sup.Some? && x == sup.value {
      assert r[x] == recs[x].(subclassList := r[x].subclassList);
    } else if sup.Some? && x == recs[sup.value].meta {
      assert r[x] == recs[x].(subclassList := r[x].subclassList);
    } else {
      assert r[x] == recs[x];
    }
  }

  /** Linking keeps the class invariant of the classes it does not link. */
  lemma LinkClassOkOther(recs: Records, r: Records, reg: set<ClassId>, rank: ClassId -> nat, c: ClassId, sup: Option<ClassId>, x: ClassId)
    requires Distinct4(recs, c, sup) && LinkShape(recs, r, c, sup) && c in recs && ClassOk(recs, reg, rank, c)
    requires x in recs && x != c && ClassOk(recs, reg, rank, x) && recs[x].meta != recs[c].meta
    ensures ClassOk(r, reg, rank, x)
  {
    LinkFrame(recs, r, c, sup, x);
    LinkFrame(recs, r, c, sup, recs[x].meta);
    if recs[x].superclass.Some? {
      LinkFrame(recs, r, c, sup, recs[x].superclass.value);
    }
  }

  /** Linking keeps the invariant of the records it does not write. */
  lemma LinkRecOkOther(names: Names, recs: Records, r: Records, reg: set<ClassId>, rank: ClassId -> nat, c: ClassId, sup: Option<ClassId>, x: ClassId)
    requires CanLink(names, recs, reg, rank, c, sup) && Distinct4(recs, c, sup) && LinkShape(recs, r, c, sup)
    requires x in recs && x != c && x != recs[c].meta
    ensures RecOk(r, reg, rank, x)
  {
    var m := recs[c].meta;
    LinkFrame(recs, r, c, sup, x);
    assert RecOk(recs, reg, rank, x);
    var rx := recs[x];
    if rx.superclass.Some? {
      LinkFrame(recs, r, c, sup, rx.superclass.value);
    }
    if sup.Some? && (x == sup.value || x == recs[sup.value].meta) {
      AppendEntryEntries(rx.subclassList, if x == sup.value then c else m);
      assert NameEdgeOk(recs, rank, c, sup.value);
    }
    if Has(rx.info, CLASS) {
      assert ClassOk(recs, reg, rank, x);
      assert RecOk(recs, reg, rank, c) && ClassOk(recs, reg, rank, c);
      assert MetaOf(recs, x) != MetaOf(recs, c);
      LinkClassOkOther(recs, r, reg, rank, c, sup, x);
    }
  }

  /** Linking establishes the invariant of the linked class. */
  lemma LinkRecOkClass(names: Names, recs: Records, r: Records, reg: set<ClassId>, rank: ClassId -> nat, c: ClassId, sup: Option<ClassId>)
    requires CanLink(names, recs, reg, rank, c, sup) && Distinct4(recs, c, sup) && LinkShape(recs, r, c, sup)
    ensures RecOk(r, reg, rank, c)
  {
    var m := recs[c].meta;
    assert RecOk(recs, reg, rank, c) && ClassOk(recs, reg, rank, c);
    LinkFrame(recs, r, c, sup, c);
    LinkFrame(recs, r, c, sup, m);
    if sup.Some? {
      var s := sup.value;
      assert NameEdgeOk(recs, rank, c, s);
      assert RecOk(recs, reg, rank, s) && ClassOk(recs, reg, rank, s);
      LinkFrame(recs, r, c, sup, s);
      assert SuperOk(r, reg, rank, c, s);
    }
    assert ClassOk(r, reg, rank, c);
  }

  /** Linking establishes the invariant of the linked class's metaclass. */
  lemma LinkRecOkMeta(names: Names, recs: Records, r: Records, reg: set<ClassId>, rank: ClassId -> nat, c: ClassId, sup: Option<ClassId>)
    requires CanLink(names, recs, reg, rank, c, sup) && Distinct4(recs, c, sup) && LinkShape(recs, r, c, sup)
    ensures RecOk(r, reg, rank, recs[c].meta)
  {
    var m := recs[c].meta;
    assert RecOk(recs, reg, rank, c) && ClassOk(recs, reg, rank, c);
    assert RecOk(recs, reg, rank, m);
    LinkFrame(recs, r, c, sup, m);
    if sup.Some? {
      var s := sup.value;
      assert NameEdgeOk(recs, rank, c, s);
      assert RecOk(recs, reg, rank, s) && ClassOk(recs, reg, rank, s);
      LinkFrame(recs, r, c, sup, recs[s].meta);
      assert SuperOk(r, reg, rank, m, recs[s].meta);
    } else {
      LinkFrame(recs, r, c, sup, c);
      assert SuperOk(r, reg, rank, m, c);
    }
  }

  /** Any records shaped like a link of c keep every invariant. */
  lemma LinkShapeOk(names: Names, recs: Records, r: Records, reg: set<ClassId>, rank: ClassId -> nat, c: ClassId, sup: Option<ClassId>)
    requires CanLink(names, recs, reg, rank, c, sup) && Distinct4(recs, c, sup) && LinkShape(recs, r, c, sup)
    ensures Ok(names, r, reg, rank)
  {
    forall x | x in r
      ensures RecOk(r, reg, rank, x)
    {
      if x == c {
        LinkRecOkClass(names, recs, r, reg, rank, c, sup);
      } else if x == recs[c].meta {
        LinkRecOkMeta(names, recs, r, reg, rank, c, sup);
      } else {
        LinkRecOkOther(names, recs, r, reg, rank, c, sup, x);
      }
    }
    forall c1, c2 | c1 in r && c2 in r && IsClass(r, c1) && IsClass(r, c2) && MetaOf(r, c1) == MetaOf(r, c2)
      ensures c1 == c2
    {
      LinkFrame(recs, r, c, sup, c1);
      LinkFrame(recs, r, c, sup, c2);
      assert MetaOf(recs, c1) == MetaOf(recs, c2);
    }
    forall n | n in names
      ensures IsClass(r, names[n]) && names[n] in reg
    {
      LinkFrame(recs, r, c, sup, names[n]);
    }
    forall x | IsClass(r, x) && !Has(r[x].info, SETUP) && r[x].superName.Some? && r[x].superName.value in names
      ensures NameEdgeOk(r, rank, x, names[r[x].superName.value])
    {
      LinkFrame(recs, r, c, sup, x);
      var d := names[r[x].superName.value];
      LinkFrame(recs, r, c, sup, d);
      assert NameEdgeOk(recs, rank, x, d);
    }
  }

  /** Linking one class keeps every invariant over the records and the class table. */
  lemma LinkStepOk(names: Names, recs: Records, reg: set<ClassId>, rank: ClassId -> nat, c: ClassId, sup: Option<ClassId>)
    requires CanLink(names, recs, reg, rank, c, sup)
    ensures Distinct4(recs, c, sup)
    ensures Ok(names, LinkStep(recs, c, sup), reg, rank)
  {
    LinkDistinct(names, recs, reg, rank, c, sup);
    LinkStepShape(recs, c, sup);
    LinkShapeOk(names, recs, LinkStep(recs, c, sup), reg, rank, c, sup);
  }

  // ---------------------------------------------------------------------
  // setup_class

  /** setup_class can link c: it is linked already, it is a root, or its superclass name is bound to a linkable class. */
  ghost predicate Linkable(names: Names, recs: Records, reg: set<ClassId>, rank: ClassId -> nat, c: ClassId)
    requires Ok(names, recs, reg, rank) && IsClass(recs, c)
    decreases rank(c)
  {
    Has(recs[c].info, SETUP) || recs[c].superName.None? ||
    (recs[c].superName.value in names &&
     var d := names[recs[c].superName.value];
     assert NameEdgeOk(recs, rank, c, d);
     Linkable(names, recs, reg, rank, d))
  }

  /** The classes setup_class(c) links: c and its unlinked ancestors, when c is linkable. */
  ghost function Linking(names: Names, recs: Records, reg: set<ClassId>, rank: ClassId -> nat, c: ClassId): (L: set<ClassId>)
    requires Ok(names, recs, reg, rank) && IsClass(recs, c)
    ensures forall x {:trigger x in L} :: x in L ==>
              IsClass(recs, x) && !Has(recs[x].info, SETUP) && rank(x) <= rank(c) && Linkable(names, recs, reg, rank, x)
    ensures c in L <==> !Has(recs[c].info, SETUP) && Linkable(names, recs, reg, rank, c)
    decreases rank(c)
  {
    if Has(recs[c].info, SETUP) || !Linkable(names, recs, reg, rank, c) then {}
    else if recs[c].superName.None? then {c}
    else
      var d := names[recs[c].superName.value];
      assert NameEdgeOk(recs, rank, c, d);
      Linking(names, recs, reg, rank, d) + {c}
  }

  /** The metaclasses of a set of records. */
  function Metas(recs: Records, L: set<ClassId>): (M: set<ClassId>)
    requires forall x {:trigger x in L} :: x in L ==> x in recs
    ensures forall x :: x in L ==> recs[x].meta in M
    ensures forall y :: y in M ==> exists x :: x in L && recs[x].meta == y
  {
    set x | x in L :: recs[x].meta
  }

  /** The records after setup_class(c). */
  function Setup(names: Names, recs: Records, reg: set<ClassId>, rank: ClassId -> nat, c: ClassId): (r: Records)
    requires Ok(names, recs, reg, rank) && IsClass(recs, c) && c in reg
    ensures r.Keys == recs.Keys
    ensures forall x {:trigger r[x]} :: x in recs ==> SameIdentity(recs[x], r[x])
    decreases rank(c)
  {
    assert RecOk(recs, reg, rank, c) && ClassOk(recs, reg, rank, c);
    if Has(recs[c].info, SETUP) then recs
    else match recs[c].superName
      case None => LinkStep(recs, c, None)
      case Some(n) =>
        if n !in names then recs
        else
          var d := names[n];
          assert NameEdgeOk(recs, rank, c, d);
          var r1 := Setup(names, recs, reg, rank, d);
          assert RecOk(recs, reg, rank, d) && ClassOk(recs, reg, rank, d);
          if !Has(r1[d].info, SETUP) then r1
          else LinkStep(r1, c, Some(d))
  }

  /** The superclass setup_class(c) resolves for c. */
  function Resolved(names: Names, rec: ClassRec): (r: Option<ClassId>)
    ensures r.Some? <==> rec.superName.Some? && rec.superName.value in names
    ensures r.Some? ==> r.value == names[rec.superName.value]
  {
    if rec.superName.Some? && rec.superName.value in names then Some(names[rec.superName.value]) else None
  }

  /** A record with its subclass list left aside. */
  function Body(r: ClassRec): (b: ClassRec)
    ensures b.subclassList.None?
    ensures b.(subclassList := r.subclassList) == r
  {
    r.(subclassList := None)
  }

  /** The instance size linking reads from the superclass, in records r. */
  function SuperSize(r: Records, sup: Option<ClassId>): Option<U32Val>
    requires sup.Some? ==> sup.value in r
  {
    if sup.Some? then Some(r[sup.value].instanceSize) else None
  }

  /** x and its metaclass in r are as linking x below its resolved superclass leaves them (subclass lists aside). */
  ghost predicate LinkedAs(names: Names, recs: Records, r: Records, x: ClassId) {
    && x in recs && x in r
    && recs[x].meta in recs && recs[x].meta in r
    && (var sup := Resolved(names, recs[x]);
        var m := recs[x].meta;
        && (sup.Some? ==> sup.value in recs && sup.value in r)
        && Body(r[x]) == Body(LinkedRecord(recs[x], sup, SuperSize(r, sup)))
        && Body(r[m]) == Body(recs[m].(superclass := Some(if sup.None? then x else recs[sup.value].meta),
                                       info := SetFlag(recs[m].info, SETUP))))
  }

  /** The subclass list b extends a: the old entries stay first, in order, and every added entry is in N. */
  predicate ListGrows(a: Option<seq<Option<ClassId>>>, b: Option<seq<Option<ClassId>>>, N: set<ClassId>) {
    var ea := Entries(a);
    var eb := Entries(b);
    |ea| <= |eb| && eb[..|ea|] == ea && forall i :: |ea| <= i < |eb| ==> eb[i] in N
  }

  /** How setup_class, linking the classes L, leaves record x. */
  ghost predicate SetupRel(names: Names, recs: Records, r: Records, L: set<ClassId>, x: ClassId)
    requires forall y {:trigger y in L} :: y in L ==> y in recs
  {
    && x in recs && x in r
    && (x in L ==> LinkedAs(names, recs, r, x))
    && (x !in L && x !in Metas(recs, L) ==> Body(r[x]) == Body(recs[x]))
    && ListGrows(recs[x].subclassList, r[x].subclassList, L + Metas(recs, L))
  }

  /** SetupRel for every record. */
  ghost predicate SetupRelAll(names: Names, recs: Records, r: Records, L: set<ClassId>)
    requires forall y {:trigger y in L} :: y in L ==> y in recs
  {
    forall x {:trigger SetupRel(names, recs, r, L, x)} :: x in recs ==> SetupRel(names, recs, r, L, x)
  }

  lemma LinkedRecordBody(a: ClassRec, b: ClassRec, sup: Option<ClassId>, superSize: Option<U32Val>)
    requires Body(a) == Body(b)
    ensures Body(LinkedRecord(a, sup, superSize)) == Body(LinkedRecord(b, sup, superSize))
  {
    assert a.(subclassList := None) == b.(subclassList := None);
  }

  lemma MetasUnion(recs: Records, L: set<ClassId>, c: ClassId)
    requires forall y {:trigger y in L} :: y in L ==> y in recs
    requires c in recs
    ensures Metas(recs, L + {c}) == Metas(recs, L) + {recs[c].meta}
  {
  }

  /** The metaclasses of linked classes are metaclass records, never classes. */
  lemma MetasAreMetaclasses(names: Names, recs: Records, reg: set<ClassId>, rank: ClassId -> nat, L: set<ClassId>)
    requires Ok(names, recs, reg, rank)
    requires forall y {:trigger y in L} :: y in L ==> y in recs && IsClass(recs, y)
    ensures forall z :: z in Metas(recs, L) ==> IsMetaclass(recs, z)
  {
    forall z | z in Metas(recs, L)
      ensures IsMetaclass(recs, z)
    {
      var y :| y in L && recs[y].meta == z;
      assert RecOk(recs, reg, rank, y) && ClassOk(recs, reg, rank, y);
    }
  }

  lemma ListGrowsRefl(a: Option<seq<Option<ClassId>>>, N: set<ClassId>)
    ensures ListGrows(a, a, N)
  {
  }

  lemma ListGrowsAppend(a: Option<seq<Option<ClassId>>>, b: Option<seq<Option<ClassId>>>, N: set<ClassId>, N': set<ClassId>, y: ClassId)
    requires ListGrows(a, b, N) && Terminated(b) && N <= N' && y in N'
    ensures ListGrows(a, AppendEntry(b, y), N')
  {
    AppendEntryEntries(b, y);
    var ea := Entries(a);
    var eb := Entries(b);
    assert (eb + [y])[..|ea|] == eb[..|ea|];
  }

  /** What one linking step inside setup_class may assume: c is linked below its resolved superclass in r1, giving r. */
  ghost predicate StepCtx(names: Names, recs: Records, r1: Records, r: Records, reg: set<ClassId>, rank: ClassId -> nat,
                          c: ClassId, sup: Option<ClassId>, L1: set<ClassId>) {
    && Ok(names, recs, reg, rank) && IsClass(recs, c) && !Has(recs[c].info, SETUP)
    && sup == Resolved(names, recs[c])
    && (forall y {:trigger y in L1} :: y in L1 ==> IsClass(recs, y) && !Has(recs[y].info, SETUP) && rank(y) < rank(c))
    && r1.Keys == recs.Keys
    && (forall y {:trigger r1[y]} :: y in recs ==> SameIdentity(recs[y], r1[y]))
    && CanLink(names, r1, reg, rank, c, sup) && Distinct4(r1, c, sup) && LinkShape(r1, r, c, sup)
  }

  /** c and its metaclass are not among the classes linked so far or their metaclasses. */
  lemma StepFresh(names: Names, recs: Records, r1: Records, r: Records, reg: set<ClassId>, rank: ClassId -> nat,
                  c: ClassId, sup: Option<ClassId>, L1: set<ClassId>)
    requires StepCtx(names, recs, r1, r, reg, rank, c, sup, L1)
    ensures c !in L1 && c !in Metas(recs, L1)
    ensures recs[c].meta !in L1 && recs[c].meta !in Metas(recs, L1)
    ensures forall z :: z in Metas(recs, L1) ==> IsMetaclass(recs, z)
    ensures IsMetaclass(recs, recs[c].meta)
  {
    MetasAreMetaclasses(names, recs, reg, rank, L1);
    assert RecOk(recs, reg, rank, c) && ClassOk(recs, reg, rank, c);
    forall z | z in L1
      ensures recs[z].meta != recs[c].meta
    {
      assert rank(z) < rank(c);
      assert MetaOf(recs, z) != MetaOf(recs, c);
    }
  }

  /** A class linked earlier than c has a metaclass and a superclass other than c and c's metaclass. */
  lemma StepEarlier(names: Names, recs: Records, r1: Records, r: Records, reg: set<ClassId>, rank: ClassId -> nat,
                    c: ClassId, sup: Option<ClassId>, L1: set<ClassId>, x: ClassId)
    requires StepCtx(names, recs, r1, r, reg, rank, c, sup, L1)
    requires x in L1
    ensures x != c && x != recs[c].meta
    ensures recs[x].meta != c && recs[x].meta != recs[c].meta
    ensures Resolved(names, recs[x]).Some? ==>
              Resolved(names, recs[x]).value != c && Resolved(names, recs[x]).value != recs[c].meta
  {
    var m := recs[c].meta;
    assert RecOk(recs, reg, rank, c) && ClassOk(recs, reg, rank, c);
    assert RecOk(recs, reg, rank, x) && ClassOk(recs, reg, rank, x);
    assert rank(x) < rank(c);
    assert MetaOf(recs, x) != MetaOf(recs, c);
    var sx := Resolved(names, recs[x]);
    if sx.Some? {
      assert NameEdgeOk(recs, rank, x, sx.value);
      assert IsClass(recs, sx.value);
    }
  }

  /** The step links c as LinkedAs describes. */
  lemma StepBodyNew(names: Names, recs: Records, r1: Records, r: Records, c: ClassId, sup: Option<ClassId>)
    requires Distinct4(r1, c, sup) && LinkShape(r1, r, c, sup)
    requires c in recs && recs[c].meta in recs && recs[c].meta == r1[c].meta
    requires sup == Resolved(names, recs[c])
    requires sup.Some? ==> sup.value in recs && recs[sup.value].meta == r1[sup.value].meta
    requires Body(r1[c]) == Body(recs[c]) && Body(r1[recs[c].meta]) == Body(recs[recs[c].meta])
    ensures LinkedAs(names, recs, r, c)
  {
    LinkedRecordBody(r1[c], recs[c], sup, SuperSize(r1, sup));
    if sup.Some? {
      LinkFrame(r1, r, c, sup, sup.value);
    }
    assert SuperSize(r1, sup) == SuperSize(r, sup);
  }

  /** The step keeps a class linked earlier as it was. */
  lemma StepBodyKept(names: Names, recs: Records, r1: Records, r: Records, c: ClassId, sup: Option<ClassId>, x: ClassId)
    requires Distinct4(r1, c, sup) && LinkShape(r1, r, c, sup)
    requires LinkedAs(names, recs, r1, x)
    requires x != c && x != r1[c].meta && recs[x].meta != c && recs[x].meta != r1[c].meta
    requires Resolved(names, recs[x]).Some? ==>
               Resolved(names, recs[x]).value != c && Resolved(names, recs[x]).value != r1[c].meta
    ensures LinkedAs(names, recs, r, x)
  {
    LinkFrame(r1, r, c, sup, x);
    LinkFrame(r1, r, c, sup, recs[x].meta);
    var sx := Resolved(names, recs[x]);
    if sx.Some? {
      LinkFrame(r1, r, c, sup, sx.value);
    }
  }

  /** The subclass list of x after the step: the step appends c to its superclass's list and m to the super-metaclass's. */
  lemma StepList(recs: Records, r1: Records, r: Records, c: ClassId, sup: Option<ClassId>, L1: set<ClassId>, x: ClassId)
    requires Distinct4(r1, c, sup) && LinkShape(r1, r, c, sup)
    requires forall y {:trigger y in L1} :: y in L1 ==> y in recs
    requires c in recs && recs[c].meta == r1[c].meta
    requires x in recs && x in r1 && Terminated(r1[x].subclassList)
    requires ListGrows(recs[x].subclassList, r1[x].subclassList, L1 + Metas(recs, L1))
    ensures ListGrows(recs[x].subclassList, r[x].subclassList, (L1 + {c}) + Metas(recs, L1 + {c}))
  {
    var N := (L1 + {c}) + Metas(recs, L1 + {c});
    MetasUnion(recs, L1, c);
    LinkFrame(r1, r, c, sup, x);
    if sup.Some? && x == sup.value {
      ListGrowsAppend(recs[x].subclassList, r1[x].subclassList, L1 + Metas(recs, L1), N, c);
    } else if sup.Some? && x == r1[sup.value].meta {
      ListGrowsAppend(recs[x].subclassList, r1[x].subclassList, L1 + Metas(recs, L1), N, r1[c].meta);
    }
  }

  /** One linking step extends the setup relation of record x from the classes linked so far to those and c. */
  lemma StepOne(names: Names, recs: Records, r1: Records, r: Records, c: ClassId, sup: Option<ClassId>, L1: set<ClassId>, x: ClassId)
    requires Distinct4(r1, c, sup) && LinkShape(r1, r, c, sup)
    requires forall y {:trigger y in L1} :: y in L1 ==> y in recs
    requires c in recs && recs[c].meta in recs && r1[c].meta == recs[c].meta
    requires sup == Resolved(names, recs[c])
    requires sup.Some? ==> sup.value in recs && r1[sup.value].meta == recs[sup.value].meta
    requires c !in L1 && c !in Metas(recs, L1) && recs[c].meta !in L1 && recs[c].meta !in Metas(recs, L1)
    requires Body(r1[c]) == Body(recs[c]) && Body(r1[recs[c].meta]) == Body(recs[recs[c].meta])
    requires SetupRel(names, recs, r1, L1, x) && Terminated(r1[x].subclassList)
    requires x in L1 ==>
               && x != c && x != recs[c].meta && recs[x].meta != c && recs[x].meta != recs[c].meta
               && (Resolved(names, recs[x]).Some? ==>
                     Resolved(names, recs[x]).value != c && Resolved(names, recs[x]).value != recs[c].meta)
    ensures SetupRel(names, recs, r, L1 + {c}, x)
  {
    MetasUnion(recs, L1, c);
    LinkFrame(r1, r, c, sup, x);
    if x == c {
      StepBodyNew(names, recs, r1, r, c, sup);
    } else if x in L1 {
      StepBodyKept(names, recs, r1, r, c, sup, x);
    }
    StepList(recs, r1, r, c, sup, L1, x);
  }

  /** StepOne's premises, from the step's context. */
  lemma StepAt(names: Names, recs: Records, r1: Records, r: Records, reg: set<ClassId>, rank: ClassId -> nat,
               c: ClassId, sup: Option<ClassId>, L1: set<ClassId>, x: ClassId)
    requires c in recs && (forall y {:trigger y in L1} :: y in L1 ==> y in recs)
    requires StepCtx(names, recs, r1, r, reg, rank, c, sup, L1)
    requires x in recs && SetupRelAll(names, recs, r1, L1)
    ensures SetupRel(names, recs, r, L1 + {c}, x)
  {
    StepFresh(names, recs, r1, r, reg, rank, c, sup, L1);
    assert SetupRel(names, recs, r1, L1, x);
    assert SetupRel(names, recs, r1, L1, c) && SetupRel(names, recs, r1, L1, recs[c].meta);
    assert r1[c].meta == recs[c].meta;
    if sup.Some? {
      assert r1[sup.value].meta == recs[sup.value].meta;
    }
    assert RecOk(r1, reg, rank, x);
    if x in L1 {
      StepEarlier(names, recs, r1, r, reg, rank, c, sup, L1, x);
    }
    StepOne(names, recs, r1, r, c, sup, L1, x);
  }

  /** One linking step extends the setup relation from the classes linked so far to those and c. */
  lemma StepAll(names: Names, recs: Records, r1: Records, r: Records, reg: set<ClassId>, rank: ClassId -> nat,
                c: ClassId, sup: Option<ClassId>, L1: set<ClassId>)
    requires StepCtx(names, recs, r1, r, reg, rank, c, sup, L1)
    requires forall y {:trigger y in L1} :: y in L1 ==> y in recs
    requires SetupRelAll(names, recs, r1, L1)
    ensures SetupRelAll(names, recs, r, L1 + {c})
  {
    forall x | x in recs
      ensures SetupRel(names, recs, r, L1 + {c}, x)
    {
      StepAt(names, recs, r1, r, reg, rank, c, sup, L1, x);
    }
  }

  lemma SetupRelRefl(names: Names, recs: Records)
    ensures SetupRelAll(names, recs, recs, {})
  {
    forall x | x in recs
      ensures SetupRel(names, recs, recs, {}, x)
    {
      ListGrowsRefl(recs[x].subclassList, {});
    }
  }

  /** One unfolding of Setup and Linking for an unlinked class whose superclass name is bound to d. */
  lemma SetupUnfold(names: Names, recs: Records, reg: set<ClassId>, rank: ClassId -> nat, c: ClassId, d: ClassId)
    requires Ok(names, recs, reg, rank) && IsClass(recs, c) && c in reg && !Has(recs[c].info, SETUP)
    requires recs[c].superName.Some? && recs[c].superName.value in names && d == names[recs[c].superName.value]
    ensures IsClass(recs, d) && d in reg && rank(d) < rank(c)
    ensures d in Setup(names, recs, reg, rank, d)
    ensures var r1 := Setup(names, recs, reg, rank, d);
            !Has(r1[d].info, SETUP) ==> Setup(names, recs, reg, rank, c) == r1
    ensures var r1 := Setup(names, recs, reg, rank, d);
            Has(r1[d].info, SETUP) ==>
              c in r1 && r1[c].meta in r1 && r1[d].meta in r1 &&
              Setup(names, recs, reg, rank, c) == LinkStep(r1, c, Some(d))
    ensures Linking(names, recs, reg, rank, c) ==
              if Linkable(names, recs, reg, rank, d) then Linking(names, recs, reg, rank, d) + {c} else {}
  {
    assert RecOk(recs, reg, rank, c) && ClassOk(recs, reg, rank, c);
    assert NameEdgeOk(recs, rank, c, d);
    assert RecOk(recs, reg, rank, d) && ClassOk(recs, reg, rank, d);
    LinkingUnfold(names, recs, reg, rank, c, d);
  }

  lemma LinkingUnfold(names: Names, recs: Records, reg: set<ClassId>, rank: ClassId -> nat, c: ClassId, d: ClassId)
    requires Ok(names, recs, reg, rank) && IsClass(recs, c) && !Has(recs[c].info, SETUP)
    requires recs[c].superName.Some? && recs[c].superName.value in names && d == names[recs[c].superName.value]
    requires IsClass(recs, d) && rank(d) < rank(c)
    ensures Linking(names, recs, reg, rank, c) ==
              if Linkable(names, recs, reg, rank, d) then Linking(names, recs, reg, rank, d) + {c} else {}
  {
  }

  /** When setup_class(d) leaves d unlinked, d was not linkable and nothing was linked. */
  lemma SetupStuck(names: Names, recs: Records, reg: set<ClassId>, rank: ClassId -> nat, d: ClassId, r1: Records, L1: set<ClassId>)
    requires Ok(names, recs, reg, rank) && IsClass(recs, d)
    requires L1 == Linking(names, recs, reg, rank, d)
    requires SetupRel(names, recs, r1, L1, d) && !Has(r1[d].info, SETUP)
    ensures !Linkable(names, recs, reg, rank, d) && L1 == {}
  {
    MetasAreMetaclasses(names, recs, reg, rank, L1);
    assert d !in Metas(recs, L1);
  }

  /** Linking c below d after setup_class(d) linked L1 into r1. */
  lemma SetupLinkStep(names: Names, recs: Records, reg: set<ClassId>, rank: ClassId -> nat, c: ClassId, d: ClassId,
                      r1: Records, L1: set<ClassId>)
    requires Ok(names, recs, reg, rank) && IsClass(recs, c) && c in reg && !Has(recs[c].info, SETUP)
    requires recs[c].superName.Some? && recs[c].superName.value in names && d == names[recs[c].superName.value]
    requires IsClass(recs, d) && d in reg && rank(d) < rank(c)
    requires r1 == Setup(names, recs, reg, rank, d) && L1 == Linking(names, recs, reg, rank, d)
    requires Ok(names, r1, reg, rank)
    requires SetupRelAll(names, recs, r1, L1)
    requires Has(r1[d].info, SETUP)
    ensures c in r1 && r1[c].meta in r1 && r1[d].meta in r1
    ensures Ok(names, LinkStep(r1, c, Some(d)), reg, rank)
    ensures SetupRelAll(names, recs, LinkStep(r1, c, Some(d)), L1 + {c})
  {
    assert RecOk(recs, reg, rank, c) && ClassOk(recs, reg, rank, c);
    assert RecOk(recs, reg, rank, d) && ClassOk(recs, reg, rank, d);
    SetupCanLink(names, recs, reg, rank, c, d, r1, L1);
    LinkStepOk(names, r1, reg, rank, c, Some(d));
    LinkStepShape(r1, c, Some(d));
    SetupStepCtx(names, recs, reg, rank, c, d, r1, L1, LinkStep(r1, c, Some(d)));
    StepAll(names, recs, r1, LinkStep(r1, c, Some(d)), reg, rank, c, Some(d), L1);
  }

  /** After setup_class(d) linked d, c can be linked below it. */
  lemma SetupThenCanLink(names: Names, recs: Records, reg: set<ClassId>, rank: ClassId -> nat, c: ClassId, d: ClassId,
                         r1: Records, L1: set<ClassId>)
    requires Ok(names, recs, reg, rank) && IsClass(recs, c) && c in reg && !Has(recs[c].info, SETUP)
    requires recs[c].superName.Some? && recs[c].superName.value in names && d == names[recs[c].superName.value]
    requires IsClass(recs, d) && d in reg && rank(d) < rank(c)
    requires r1 == Setup(names, recs, reg, rank, d) && L1 == Linking(names, recs, reg, rank, d)
    requires Ok(names, r1, reg, rank)
    requires SetupRelAll(names, recs, r1, L1)
    requires Has(r1[d].info, SETUP)
    ensures CanLink(names, r1, reg, rank, c, Some(d))
  {
    assert RecOk(recs, reg, rank, c) && ClassOk(recs, reg, rank, c);
    assert RecOk(recs, reg, rank, d) && ClassOk(recs, reg, rank, d);
    SetupCanLink(names, recs, reg, rank, c, d, r1, L1);
  }

  lemma SetupStepCtx(names: Names, recs: Records, reg: set<ClassId>, rank: ClassId -> nat, c: ClassId, d: ClassId,
                     r1: Records, L1: set<ClassId>, r: Records)
    requires Ok(names, recs, reg, rank) && IsClass(recs, c) && !Has(recs[c].info, SETUP)
    requires recs[c].superName.Some? && recs[c].superName.value in names && d == names[recs[c].superName.value]
    requires forall y {:trigger y in L1} :: y in L1 ==> IsClass(recs, y) && !Has(recs[y].info, SETUP) && rank(y) <= rank(d) && rank(d) < rank(c)
    requires r1.Keys == recs.Keys
    requires forall x {:trigger r1[x]} :: x in recs ==> SameIdentity(recs[x], r1[x])
    requires CanLink(names, r1, reg, rank, c, Some(d)) && Distinct4(r1, c, Some(d)) && LinkShape(r1, r, c, Some(d))
    ensures StepCtx(names, recs, r1, r, reg, rank, c, Some(d), L1)
  {
  }

  /** After setup_class(d) linked d, c can be linked below it. */
  lemma SetupCanLink(names: Names, recs: Records, reg: set<ClassId>, rank: ClassId -> nat, c: ClassId, d: ClassId,
                     r1: Records, L1: set<ClassId>)
    requires Ok(names, recs, reg, rank) && IsClass(recs, c) && c in reg && !Has(recs[c].info, SETUP)
    requires recs[c].superName.Some? && recs[c].superName.value in names && d == names[recs[c].superName.value]
    requires forall y {:trigger y in L1} :: y in L1 ==> y in recs && IsClass(recs, y) && rank(y) <= rank(d) && rank(d) < rank(c)
    requires Ok(names, r1, reg, rank) && r1.Keys == recs.Keys
    requires forall x {:trigger r1[x]} :: x in recs ==> SameIdentity(recs[x], r1[x])
    requires SetupRel(names, recs, r1, L1, c)
    requires Has(r1[d].info, SETUP)
    ensures CanLink(names, r1, reg, rank, c, Some(d))
  {
    assert RecOk(recs, reg, rank, c) && ClassOk(recs, reg, rank, c);
    MetasAreMetaclasses(names, recs, reg, rank, L1);
    assert c !in Metas(recs, L1);
    assert SameIdentity(recs[c], r1[c]);
  }

  /**
    * setup_class(c) keeps the invariants, and links exactly the classes
    * Linking names: each of them and its metaclass end up as LinkedAs
    * says, every other record keeps its body, and subclass lists only grow,
    * by linked classes and their metaclasses.
    */
  lemma {:induction false} SetupSpec(names: Names, recs: Records, reg: set<ClassId>, rank: ClassId -> nat, c: ClassId)
    requires Ok(names, recs, reg, rank) && IsClass(recs, c) && c in reg
    ensures Ok(names, Setup(names, recs, reg, rank, c), reg, rank)
    ensures SetupRelAll(names, recs, Setup(names, recs, reg, rank, c), Linking(names, recs, reg, rank, c))
    decreases rank(c)
  {
    var r := Setup(names, recs, reg, rank, c);
    var L := Linking(names, recs, reg, rank, c);
    SetupRelRefl(names, recs);
    if Has(recs[c].info, SETUP) {
      assert r == recs && L == {};
    } else if recs[c].superName.None? {
      SetupRoot(names, recs, reg, rank, c);
    } else if recs[c].superName.value !in names {
      assert r == recs && L == {};
    } else {
      var d := names[recs[c].superName.value];
      assert RecOk(recs, reg, rank, c) && ClassOk(recs, reg, rank, c);
      assert NameEdgeOk(recs, rank, c, d);
      assert IsClass(recs, d) && d in reg;
      SetupSpec(names, recs, reg, rank, d);
      SetupAfterSuper(names, recs, reg, rank, c, d);
    }
  }

  /** SetupSpec for a class with a bound superclass name, once it holds for that superclass. */
  lemma SetupAfterSuper(names: Names, recs: Records, reg: set<ClassId>, rank: ClassId -> nat, c: ClassId, d: ClassId)
    requires Ok(names, recs, reg, rank) && IsClass(recs, c) && c in reg && !Has(recs[c].info, SETUP)
    requires recs[c].superName.Some? && recs[c].superName.value in names && d == names[recs[c].superName.value]
    requires IsClass(recs, d) && d in reg
    requires Ok(names, Setup(names, recs, reg, rank, d), reg, rank)
    requires SetupRelAll(names, recs, Setup(names, recs, reg, rank, d), Linking(names, recs, reg, rank, d))
    ensures Ok(names, Setup(names, recs, reg, rank, c), reg, rank)
    ensures SetupRelAll(names, recs, Setup(names, recs, reg, rank, c), Linking(names, recs, reg, rank, c))
  {
    SetupUnfold(names, recs, reg, rank, c, d);
    var r1 := Setup(names, recs, reg, rank, d);
    var L1 := Linking(names, recs, reg, rank, d);
    assert SetupRel(names, recs, r1, L1, d);
    if !Has(r1[d].info, SETUP) {
      SetupStuck(names, recs, reg, rank, d, r1, L1);
      assert Setup(names, recs, reg, rank, c) == r1;
      assert Linking(names, recs, reg, rank, c) == {};
    } else {
      SetupAfterLinked(names, recs, reg, rank, c, d);
    }
  }

  lemma SetupAfterLinked(names: Names, recs: Records, reg: set<ClassId>, rank: ClassId -> nat, c: ClassId, d: ClassId)
    requires Ok(names, recs, reg, rank) && IsClass(recs, c) && c in reg && !Has(recs[c].info, SETUP)
    requires recs[c].superName.Some? && recs[c].superName.value in names && d == names[recs[c].superName.value]
    requires IsClass(recs, d) && d in reg
    requires Ok(names, Setup(names, recs, reg, rank, d), reg, rank)
    requires SetupRelAll(names, recs, Setup(names, recs, reg, rank, d), Linking(names, recs, reg, rank, d))
    requires d in Setup(names, recs, reg, rank, d) && Has(Setup(names, recs, reg, rank, d)[d].info, SETUP)
    ensures Ok(names, Setup(names, recs, reg, rank, c), reg, rank)
    ensures SetupRelAll(names, recs, Setup(names, recs, reg, rank, c), Linking(names, recs, reg, rank, c))
  {
    SetupUnfold(names, recs, reg, rank, c, d);
    var r1 := Setup(names, recs, reg, rank, d);
    var L1 := Linking(names, recs, reg, rank, d);
    assert SetupRel(names, recs, r1, L1, d);
    assert Linkable(names, recs, reg, rank, d);
    SetupLinkStep(names, recs, reg, rank, c, d, r1, L1);
  }

  /** SetupSpec for a root class. */
  lemma SetupRoot(names: Names, recs: Records, reg: set<ClassId>, rank: ClassId -> nat, c: ClassId)
    requires Ok(names, recs, reg, rank) && IsClass(recs, c) && c in reg
    requires !Has(recs[c].info, SETUP) && recs[c].superName.None?
    ensures Ok(names, Setup(names, recs, reg, rank, c), reg, rank)
    ensures SetupRelAll(names, recs, Setup(names, recs, reg, rank, c), Linking(names, recs, reg, rank, c))
  {
    var r := Setup(names, recs, reg, rank, c);
    assert Linking(names, recs, reg, rank, c) == {} + {c};
    LinkStepOk(names, recs, reg, rank, c, None);
    LinkStepShape(recs, c, None);
    SetupRelRefl(names, recs);
    StepAll(names, recs, recs, r, reg, rank, c, None, {});
  }

  /** How setup_class leaves the SETUP bit of one record. */
  lemma SetupFlagAt(names: Names, recs: Records, r: Records, L: set<ClassId>, x: ClassId)
    requires forall y {:trigger y in L} :: y in L ==> y in recs
    requires SetupRelAll(names, recs, r, L) && x in recs
    ensures x in r
    ensures Has(r[x].info, SETUP) <==> Has(recs[x].info, SETUP) || x in L || x in Metas(recs, L)
  {
    assert SetupRel(names, recs, r, L, x);
    if x in L {
      assert LinkedAs(names, recs, r, x);
    } else if x in Metas(recs, L) {
      var y :| y in L && recs[y].meta == x;
      assert SetupRel(names, recs, r, L, y);
      assert LinkedAs(names, recs, r, y);
    }
  }

  /**
    * setup_class sets SETUP on exactly the classes it links and their
    * metaclasses, clears no flag, and leaves c (and its metaclass) linked
    * exactly when c is linkable.
    */
  lemma SetupLinks(names: Names, recs: Records, reg: set<ClassId>, rank: ClassId -> nat, c: ClassId)
    requires Ok(names, recs, reg, rank) && IsClass(recs, c) && c in reg
    ensures var r := Setup(names, recs, reg, rank, c);
            var L := Linking(names, recs, reg, rank, c);
            forall x :: x in recs ==>
              (Has(r[x].info, SETUP) <==> Has(recs[x].info, SETUP) || x in L || x in Metas(recs, L))
    ensures Has(Setup(names, recs, reg, rank, c)[c].info, SETUP) <==> Linkable(names, recs, reg, rank, c)
    ensures recs[c].meta in recs
    ensures Has(Setup(names, recs, reg, rank, c)[recs[c].meta].info, SETUP) <==> Linkable(names, recs, reg, rank, c)
  {
    var r := Setup(names, recs, reg, rank, c);
    var L := Linking(names, recs, reg, rank, c);
    SetupSpec(names, recs, reg, rank, c);
    forall x | x in recs
      ensures Has(r[x].info, SETUP) <==> Has(recs[x].info, SETUP) || x in L || x in Metas(recs, L)
    {
      SetupFlagAt(names, recs, r, L, x);
    }
    assert RecOk(recs, reg, rank, c) && ClassOk(recs, reg, rank, c);
    MetasAreMetaclasses(names, recs, reg, rank, L);
    SetupFlagAt(names, recs, r, L, c);
    assert RecOk(r, reg, rank, c) && ClassOk(r, reg, rank, c);
  }

  /** A class setup_class cannot link is left as it was, and so is every other record. */
  lemma {:induction false} SetupUnlinkable(names: Names, recs: Records, reg: set<ClassId>, rank: ClassId -> nat, c: ClassId)
    requires Ok(names, recs, reg, rank) && IsClass(recs, c) && c in reg
    requires !Linkable(names, recs, reg, rank, c)
    ensures Setup(names, recs, reg, rank, c) == recs
    decreases rank(c)
  {
    assert RecOk(recs, reg, rank, c) && ClassOk(recs, reg, rank, c);
    if recs[c].superName.Some? && recs[c].superName.value in names {
      var d := names[recs[c].superName.value];
      assert NameEdgeOk(recs, rank, c, d);
      assert RecOk(recs, reg, rank, d) && ClassOk(recs, reg, rank, d);
      SetupUnlinkable(names, recs, reg, rank, d);
    }
  }

  /** setup_class is idempotent: a second call changes nothing. */
  lemma SetupIdempotent(names: Names, recs: Records, reg: set<ClassId>, rank: ClassId -> nat, c: ClassId)
    requires Ok(names, recs, reg, rank) && IsClass(recs, c) && c in reg
    ensures Ok(names, Setup(names, recs, reg, rank, c), reg, rank)
    ensures IsClass(Setup(names, recs, reg, rank, c), c)
    ensures Setup(names, Setup(names, recs, reg, rank, c), reg, rank, c) == Setup(names, recs, reg, rank, c)
  {
    var r := Setup(names, recs, reg, rank, c);
    SetupSpec(names, recs, reg, rank, c);
    SetupLinks(names, recs, reg, rank, c);
    if !Linkable(names, recs, reg, rank, c) {
      SetupUnlinkable(names, recs, reg, rank, c);
    }
    assert Has(r[c].info, SETUP) || r == recs;
  }

  /**
    * When setup_class links c: c points to the class its superclass name
    * resolves to, its metaclass points to that class's metaclass (to c
    * itself for a root class), and c's record is LinkedRecord applied to
    * the record before, with the superclass's final instance size.
    */
  lemma SetupLinksClass(names: Names, recs: Records, reg: set<ClassId>, rank: ClassId -> nat, c: ClassId)
    requires Ok(names, recs, reg, rank) && IsClass(recs, c) && c in reg
    requires !Has(recs[c].info, SETUP) && Linkable(names, recs, reg, rank, c)
    ensures var r := Setup(names, recs, reg, rank, c);
            var sup := Resolved(names, recs[c]);
            var m := recs[c].meta;
            && m in recs && m in r && (sup.Some? ==> sup.value in recs && sup.value in r)
            && r[c].superclass == sup
            && r[m].superclass == Some(if sup.None? then c else recs[sup.value].meta)
            && Has(r[c].info, SETUP) && Has(r[m].info, SETUP)
            && r[c].(subclassList := recs[c].subclassList) == LinkedRecord(recs[c], sup, SuperSize(r, sup))
  {
    var r := Setup(names, recs, reg, rank, c);
    var L := Linking(names, recs, reg, rank, c);
    SetupSpec(names, recs, reg, rank, c);
    assert SetupRel(names, recs, r, L, c);
    assert LinkedAs(names, recs, r, c);
    assert RecOk(recs, reg, rank, c) && ClassOk(recs, reg, rank, c);
  }

  // ---------------------------------------------------------------------
  // Subclass lists against superclass pointers

  /** y is a root metaclass: its superclass pointer leads to the class whose metaclass it is. */
  predicate RootMeta(recs: Records, y: ClassId) {
    && IsMetaclass(recs, y) && recs[y].superclass.Some?
    && IsClass(recs, recs[y].superclass.value) && recs[recs[y].superclass.value].meta == y
  }

  /** y appears in the subclass list of the record its superclass pointer leads to. */
  predicate Listed(recs: Records, y: ClassId)
    requires y in recs && recs[y].superclass.Some?
  {
    recs[y].superclass.value in recs && y in Entries(recs[recs[y].superclass.value].subclassList)
  }

  /** Every entry of a subclass list points back at the list's owner. */
  ghost predicate EntriesBack(recs: Records) {
    forall s, y {:trigger y in Entries(recs[s].subclassList)} ::
      s in recs && y in Entries(recs[s].subclassList) ==> y in recs && recs[y].superclass == Some(s)
  }

  /** An unlinked record points nowhere. */
  ghost predicate UnlinkedFree(recs: Records) {
    forall y {:trigger recs[y]} :: y in recs && !Has(recs[y].info, SETUP) ==> recs[y].superclass.None?
  }

  ghost predicate ListsPointBack(recs: Records) {
    EntriesBack(recs) && UnlinkedFree(recs)
  }

  /**
    * The subclass lists as setup_class builds them: the two directions
    * agree, except that a root metaclass, whose superclass is its root
    * class, is in no list.
    */
  ghost predicate ListsExact(recs: Records) {
    && ListsPointBack(recs)
    && (forall y {:trigger recs[y]} :: y in recs && recs[y].superclass.Some? && !RootMeta(recs, y) ==> Listed(recs, y))
  }

  /** The subclass lists and superclass pointers agree with no exception. */
  ghost predicate ListsTwoWay(recs: Records) {
    && ListsPointBack(recs)
    && (forall y {:trigger recs[y]} :: y in recs && recs[y].superclass.Some? ==> Listed(recs, y))
  }

  /** What the lists need before c is linked below sup: the four records distinct, c and its metaclass unlinked, the lists written terminated. */
  ghost predicate ListLinkPre(recs: Records, c: ClassId, sup: Option<ClassId>) {
    && Distinct4(recs, c, sup)
    && IsClass(recs, c) && IsMetaclass(recs, recs[c].meta)
    && !Has(recs[c].info, SETUP) && !Has(recs[recs[c].meta].info, SETUP)
    && Terminated(recs[c].subclassList)
    && (sup.Some? ==>
          && IsClass(recs, sup.value) && IsMetaclass(recs, recs[sup.value].meta)
          && Terminated(recs[sup.value].subclassList) && Terminated(recs[recs[sup.value].meta].subclassList))
  }

  lemma CanLinkLists(names: Names, recs: Records, reg: set<ClassId>, rank: ClassId -> nat, c: ClassId, sup: Option<ClassId>)
    requires CanLink(names, recs, reg, rank, c, sup)
    ensures ListLinkPre(recs, c, sup)
  {
    LinkDistinct(names, recs, reg, rank, c, sup);
    assert RecOk(recs, reg, rank, c) && ClassOk(recs, reg, rank, c);
    if sup.Some? {
      var s := sup.value;
      assert RecOk(recs, reg, rank, s) && ClassOk(recs, reg, rank, s);
      assert RecOk(recs, reg, rank, recs[s].meta);
    }
  }

  /** Before linking, neither c nor its metaclass is an entry of any list. */
  lemma LinkedNowhere(recs: Records, c: ClassId, sup: Option<ClassId>, s: ClassId)
    requires ListLinkPre(recs, c, sup) && ListsPointBack(recs) && s in recs
    ensures c !in Entries(recs[s].subclassList) && recs[c].meta !in Entries(recs[s].subclassList)
    ensures recs[c].superclass.None? && recs[recs[c].meta].superclass.None?
  {
  }

  /** An entry of a list after linking points back at the list's owner. */
  lemma LinkEntryBack(recs: Records, r: Records, c: ClassId, sup: Option<ClassId>, s: ClassId, y: ClassId)
    requires ListLinkPre(recs, c, sup) && LinkShape(recs, r, c, sup) && ListsPointBack(recs)
    requires s in r && y in Entries(r[s].subclassList)
    ensures y in r && r[y].superclass == Some(s)
  {
    var m := recs[c].meta;
    LinkedNowhere(recs, c, sup, s);
    LinkFrame(recs, r, c, sup, s);
    if sup.Some? && (s == sup.value || s == recs[sup.value].meta) {
      AppendEntryEntries(recs[s].subclassList, if s == sup.value then c else m);
    }
    if y != c && y != m {
      LinkFrame(recs, r, c, sup, y);
    }
  }

  /** Linking keeps every list pointing back. */
  lemma LinkPointsBack(recs: Records, r: Records, c: ClassId, sup: Option<ClassId>)
    requires ListLinkPre(recs, c, sup) && LinkShape(recs, r, c, sup) && ListsPointBack(recs)
    ensures ListsPointBack(r)
  {
    LinkEntriesBack(recs, r, c, sup);
    LinkUnlinkedFree(recs, r, c, sup);
  }

  lemma LinkEntriesBack(recs: Records, r: Records, c: ClassId, sup: Option<ClassId>)
    requires ListLinkPre(recs, c, sup) && LinkShape(recs, r, c, sup) && ListsPointBack(recs)
    ensures EntriesBack(r)
  {
    forall s, y {:trigger y in Entries(r[s].subclassList)} | s in r && y in Entries(r[s].subclassList)
      ensures y in r && r[y].superclass == Some(s)
    {
      LinkEntryBack(recs, r, c, sup, s, y);
    }
  }

  lemma LinkUnlinkedFree(recs: Records, r: Records, c: ClassId, sup: Option<ClassId>)
    requires ListLinkPre(recs, c, sup) && LinkShape(recs, r, c, sup) && UnlinkedFree(recs)
    ensures UnlinkedFree(r)
  {
    forall y | y in r && !Has(r[y].info, SETUP)
      ensures r[y].superclass.None?
    {
      LinkFrame(recs, r, c, sup, y);
    }
  }

  /** A record other than c and its metaclass keeps its superclass pointer, whether it is a root metaclass, and its place in a list. */
  lemma LinkKeepsPointer(recs: Records, r: Records, c: ClassId, sup: Option<ClassId>, y: ClassId)
    requires ListLinkPre(recs, c, sup) && LinkShape(recs, r, c, sup)
    requires y in recs && y != c && y != recs[c].meta
    ensures y in r && r[y].superclass == recs[y].superclass
    ensures recs[y].superclass.Some? ==> (RootMeta(r, y) <==> RootMeta(recs, y))
    ensures recs[y].superclass.Some? && Listed(recs, y) ==> Listed(r, y)
  {
    LinkFrame(recs, r, c, sup, y);
    if recs[y].superclass.Some? && recs[y].superclass.value in recs {
      var s := recs[y].superclass.value;
      LinkFrame(recs, r, c, sup, s);
      if sup.Some? && (s == sup.value || s == recs[sup.value].meta) {
        AppendEntryEntries(recs[s].subclassList, if s == sup.value then c else recs[c].meta);
      }
    }
  }

  /**
    * Linking c keeps the subclass lists exact: c joins its superclass's
    * list and its metaclass the super-metaclass's, and a root class's
    * metaclass is the one record left out.
    */
  lemma LinkKeepsExact(recs: Records, r: Records, c: ClassId, sup: Option<ClassId>)
    requires ListLinkPre(recs, c, sup) && LinkShape(recs, r, c, sup) && ListsExact(recs)
    ensures ListsExact(r)
  {
    LinkPointsBack(recs, r, c, sup);
    var m := recs[c].meta;
    forall y | y in r && r[y].superclass.Some? && !RootMeta(r, y)
      ensures Listed(r, y)
    {
      if y == c || y == m {
        LinkFrame(recs, r, c, sup, c);
        LinkFrame(recs, r, c, sup, m);
        if sup.Some? {
          var s := sup.value;
          AppendEntryEntries(recs[s].subclassList, c);
          AppendEntryEntries(recs[recs[s].meta].subclassList, m);
        }
      } else {
        LinkKeepsPointer(recs, r, c, sup, y);
      }
    }
  }

  /** The root case of LinkStep as written: the metaclass points at the root class, which does not list it. */
  lemma RootMetaUnlisted(recs: Records, c: ClassId)
    requires ListLinkPre(recs, c, None) && ListsPointBack(recs)
    ensures var r := LinkStep(recs, c, None);
            var m := recs[c].meta;
            && m in r && r[m].superclass == Some(c) && RootMeta(r, m)
            && m !in Entries(r[c].subclassList)
            && !ListsTwoWay(r)
  {
    var r := LinkStep(recs, c, None);
    var m := recs[c].meta;
    LinkStepShape(recs, c, None);
    LinkedNowhere(recs, c, None, c);
    LinkFrame(recs, r, c, None, c);
    LinkFrame(recs, r, c, None, m);
    assert !Listed(r, m);
  }

  /** LinkStep with the root metaclass also added to its root class's subclass list. */
  function LinkStepFixed(recs: Records, c: ClassId, sup: Option<ClassId>): (r: Records)
    requires c in recs && recs[c].meta in recs
    requires sup.Some? ==> sup.value in recs && recs[sup.value].meta in recs
    ensures r.Keys == recs.Keys
    ensures forall x {:trigger r[x]} :: x in recs ==> SameIdentity(recs[x], r[x])
  {
    var r1 := LinkStep(recs, c, sup);
    if sup.Some? then r1
    else r1[c := r1[c].(subclassList := AppendEntry(r1[c].subclassList, recs[c].meta))]
  }

  /** With the fix, linking keeps the subclass lists and superclass pointers in full agreement. */
  lemma LinkStepFixedKeepsTwoWay(recs: Records, c: ClassId, sup: Option<ClassId>)
    requires ListLinkPre(recs, c, sup) && ListsTwoWay(recs)
    ensures ListsTwoWay(LinkStepFixed(recs, c, sup))
  {
    var r1 := LinkStep(recs, c, sup);
    LinkStepShape(recs, c, sup);
    LinkPointsBack(recs, r1, c, sup);
    if sup.None? {
      RootFixTwoWay(recs, r1, c);
    } else {
      LinkKeepsExact(recs, r1, c, sup);
      LinkedTwoWay(recs, r1, c, sup);
    }
  }

  /** Below a superclass, the linked metaclass is no root metaclass, so the exact lists agree in full. */
  lemma LinkedTwoWay(recs: Records, r: Records, c: ClassId, sup: Option<ClassId>)
    requires ListLinkPre(recs, c, sup) && LinkShape(recs, r, c, sup) && sup.Some?
    requires ListsTwoWay(recs) && ListsExact(r)
    ensures ListsTwoWay(r)
  {
    var m := recs[c].meta;
    forall y | y in r && r[y].superclass.Some?
      ensures Listed(r, y)
    {
      if y == c || y == m {
        LinkFrame(recs, r, c, sup, c);
        LinkFrame(recs, r, c, sup, m);
        LinkFrame(recs, r, c, sup, recs[sup.value].meta);
        assert !RootMeta(r, y);
      } else {
        LinkKeepsPointer(recs, r, c, sup, y);
      }
    }
  }

  /** The root case of the fix: adding the metaclass to the root class's list closes the one gap. */
  lemma RootFixTwoWay(recs: Records, r1: Records, c: ClassId)
    requires ListLinkPre(recs, c, None) && LinkShape(recs, r1, c, None) && ListsTwoWay(recs) && ListsPointBack(r1)
    requires c in r1 && recs[c].meta in r1
    ensures ListsTwoWay(r1[c := r1[c].(subclassList := AppendEntry(r1[c].subclassList, recs[c].meta))])
  {
    var r := r1[c := r1[c].(subclassList := AppendEntry(r1[c].subclassList, recs[c].meta))];
    LinkFrame(recs, r1, c, None, c);
    LinkFrame(recs, r1, c, None, recs[c].meta);
    AppendEntryEntries(recs[c].subclassList, recs[c].meta);
    RootFixEntriesBack(recs, r1, r, c);
    RootFixListed(recs, r1, r, c);
  }

  lemma RootFixEntriesBack(recs: Records, r1: Records, r: Records, c: ClassId)
    requires ListLinkPre(recs, c, None) && LinkShape(recs, r1, c, None) && ListsPointBack(r1)
    requires c in r1 && recs[c].meta in r1 && r1[recs[c].meta].superclass == Some(c)
    requires Entries(r1[c].subclassList) == Entries(recs[c].subclassList)
    requires Entries(AppendEntry(r1[c].subclassList, recs[c].meta)) == Entries(recs[c].subclassList) + [recs[c].meta]
    requires r == r1[c := r1[c].(subclassList := AppendEntry(r1[c].subclassList, recs[c].meta))]
    ensures EntriesBack(r) && UnlinkedFree(r)
  {
    forall s, y {:trigger y in Entries(r[s].subclassList)} | s in r && y in Entries(r[s].subclassList)
      ensures y in r && r[y].superclass == Some(s)
    {
      if s != c {
        assert r[s] == r1[s];
      }
    }
  }

  lemma RootFixListed(recs: Records, r1: Records, r: Records, c: ClassId)
    requires ListLinkPre(recs, c, None) && LinkShape(recs, r1, c, None) && ListsTwoWay(recs)
    requires c in r1 && recs[c].meta in r1 && r1[c].superclass.None? && r1[recs[c].meta].superclass == Some(c)
    requires Entries(AppendEntry(r1[c].subclassList, recs[c].meta)) == Entries(recs[c].subclassList) + [recs[c].meta]
    requires r == r1[c := r1[c].(subclassList := AppendEntry(r1[c].subclassList, recs[c].meta))]
    ensures forall y {:trigger r[y]} :: y in r && r[y].superclass.Some? ==> Listed(r, y)
  {
    forall y | y in r && r[y].superclass.Some?
      ensures Listed(r, y)
    {
      if y != c && y != recs[c].meta {
        LinkKeepsPointer(recs, r1, c, None, y);
        assert Listed(recs, y);
        if recs[y].superclass.value == c {
          LinkedNowhere(recs, c, None, c);
        }
      }
    }
  }

  /** One LinkStep keeps the subclass lists exact. */
  lemma LinkStepKeepsExact(names: Names, recs: Records, reg: set<ClassId>, rank: ClassId -> nat, c: ClassId, sup: Option<ClassId>)
    requires CanLink(names, recs, reg, rank, c, sup) && ListsExact(recs)
    ensures c in recs && recs[c].meta in recs && (sup.Some? ==> sup.value in recs && recs[sup.value].meta in recs)
    ensures ListsExact(LinkStep(recs, c, sup))
  {
    CanLinkLists(names, recs, reg, rank, c, sup);
    LinkStepShape(recs, c, sup);
    LinkKeepsExact(recs, LinkStep(recs, c, sup), c, sup);
  }

  /** setup_class keeps the subclass lists exact. */
  lemma {:induction false} SetupKeepsExact(names: Names, recs: Records, reg: set<ClassId>, rank: ClassId -> nat, c: ClassId)
    requires Ok(names, recs, reg, rank) && IsClass(recs, c) && c in reg && ListsExact(recs)
    ensures ListsExact(Setup(names, recs, reg, rank, c))
    decreases rank(c)
  {
    if !Has(recs[c].info, SETUP) {
      if recs[c].superName.None? {
        LinkStepKeepsExact(names, recs, reg, rank, c, None);
      } else if recs[c].superName.value in names {
        var d := names[recs[c].superName.value];
        SetupUnfold(names, recs, reg, rank, c, d);
        SetupKeepsExact(names, recs, reg, rank, d);
        SetupBelowKeepsExact(names, recs, reg, rank, c, d);
      }
    }
  }

  /** The step of SetupKeepsExact for a class whose superclass name is bound to d. */
  lemma SetupBelowKeepsExact(names: Names, recs: Records, reg: set<ClassId>, rank: ClassId -> nat, c: ClassId, d: ClassId)
    requires Ok(names, recs, reg, rank) && IsClass(recs, c) && c in reg && !Has(recs[c].info, SETUP)
    requires recs[c].superName.Some? && recs[c].superName.value in names && d == names[recs[c].superName.value]
    requires IsClass(recs, d) && d in reg && rank(d) < rank(c)
    requires ListsExact(Setup(names, recs, reg, rank, d))
    ensures ListsExact(Setup(names, recs, reg, rank, c))
  {
    SetupUnfold(names, recs, reg, rank, c, d);
    var r1 := Setup(names, recs, reg, rank, d);
    if Has(r1[d].info, SETUP) {
      SetupSpec(names, recs, reg, rank, d);
      SetupThenCanLink(names, recs, reg, rank, c, d, r1, Linking(names, recs, reg, rank, d));
      LinkStepKeepsExact(names, r1, reg, rank, c, Some(d));
    }
  }
}
