/**
  * The read-only queries of class.c that walk a class's superclass chain or
  * its method and ivar lists: class_isKindOfClass, class_getInstanceVariable,
  * class_getInstanceMethod, object_isMethodFromClass, objc_get_type_encoding
  * and objc_getClassList. Those that begin with objc_initialize_class run it
  * first and then read the records it leaves.
  */
module Reflection {
  import opened RuntimeTypes
  import opened MethodLists
  import opened Hierarchy
  import opened ObjcRuntime
  import opened Dispatch
  import opened Initializer
  import opened MethodSearch
  import Loader

  // ---------------------------------------------------------------------
  // The superclass walk `for (iter = cls; iter != Nil; iter = iter->superclass)`

  /** Superclass pointers lead to records of smaller rank, so every walk up them ends. */
  ghost predicate Walkable(recs: Records, rank: ClassId -> nat) {
    forall x {:trigger recs[x]} :: x in recs && recs[x].superclass.Some? ==>
      recs[x].superclass.value in recs && rank(recs[x].superclass.value) < rank(x)
  }

  /** Every record's method chain is made of existing batches. */
  ghost predicate ChainsIn(recs: Records, batches: Batches) {
    forall x {:trigger recs[x]} :: x in recs ==> ChainIn(batches, recs[x].methodlist)
  }

  lemma ValidWalkable(rt: Runtime)
    requires rt.Valid()
    ensures Walkable(rt.recs, rt.rank) && ChainsIn(rt.recs, rt.batches)
  {
    forall x | x in rt.recs && rt.recs[x].superclass.Some?
      ensures rt.recs[x].superclass.value in rt.recs && rt.rank(rt.recs[x].superclass.value) < rt.rank(x)
    {
      assert RecOk(rt.recs, rt.Registered(), rt.rank, x);
    }
  }

  /** The i-th record of s has the next one as its superclass. */
  ghost predicate Links(recs: Records, s: seq<ClassId>, i: nat)
    requires i + 1 < |s| && s[i] in recs
  {
    recs[s[i]].superclass == Some(s[i + 1])
  }

  /**
    * The records the walk from c visits, in order: c, its superclass, and so
    * on up to a root (a record whose superclass is Nil).
    */
  ghost function Supers(recs: Records, rank: ClassId -> nat, c: ClassId): (s: seq<ClassId>)
    requires Walkable(recs, rank) && c in recs
    ensures |s| > 0 && s[0] == c
    ensures forall i :: 0 <= i < |s| ==> s[i] in recs
    ensures forall i :: 0 <= i < |s| - 1 ==> Links(recs, s, i)
    ensures forall i :: 0 < i < |s| ==> rank(s[i]) < rank(c)
    ensures recs[s[|s| - 1]].superclass.None?
    decreases rank(c)
  {
    if recs[c].superclass.None? then [c]
    else
      var t := Supers(recs, rank, recs[c].superclass.value);
      var s := [c] + t;
      assert forall i :: 0 <= i < |s| - 1 ==> Links(recs, s, i) by {
        forall i | 0 <= i < |s| - 1
          ensures Links(recs, s, i)
        {
          if i > 0 {
            assert Links(recs, t, i - 1);
            assert s[i] == t[i - 1] && s[i + 1] == t[i];
          }
        }
      }
      assert forall i :: 0 < i < |s| ==> s[i] == t[i - 1];
      s
  }

  /** One step of the walk: the superclass of its d-th record is the next record, or Nil at the root. */
  lemma SupersNext(recs: Records, rank: ClassId -> nat, c: ClassId, d: nat)
    requires Walkable(recs, rank) && c in recs && d < |Supers(recs, rank, c)|
    ensures recs[Supers(recs, rank, c)[d]].superclass ==
              if d + 1 < |Supers(recs, rank, c)| then Some(Supers(recs, rank, c)[d + 1]) else None
  {
    var s := Supers(recs, rank, c);
    if d + 1 < |s| {
      assert Links(recs, s, d);
    }
  }

  /** The walk from the i-th record of c's walk is the rest of c's walk. */
  lemma {:induction false} SupersSuffix(recs: Records, rank: ClassId -> nat, c: ClassId, i: nat)
    requires Walkable(recs, rank) && c in recs && i < |Supers(recs, rank, c)|
    ensures Supers(recs, rank, Supers(recs, rank, c)[i]) == Supers(recs, rank, c)[i..]
    decreases rank(c)
  {
    if i > 0 {
      var t := Supers(recs, rank, recs[c].superclass.value);
      assert Supers(recs, rank, c) == [c] + t;
      assert ([c] + t)[i..] == t[i - 1..];
      SupersSuffix(recs, rank, recs[c].superclass.value, i - 1);
    }
  }

  /** Being a kind of a class is transitive. */
  lemma KindOfTransitive(recs: Records, rank: ClassId -> nat, c1: ClassId, c2: ClassId, c3: ClassId)
    requires Walkable(recs, rank) && c1 in recs && c2 in recs
    requires c2 in Supers(recs, rank, c1) && c3 in Supers(recs, rank, c2)
    ensures c3 in Supers(recs, rank, c1)
  {
    var s := Supers(recs, rank, c1);
    var i :| 0 <= i < |s| && s[i] == c2;
    SupersSuffix(recs, rank, c1, i);
    assert Supers(recs, rank, c2) == s[i..];
  }

  /** Two records that are each a kind of the other are the same record. */
  lemma KindOfAntisymmetric(recs: Records, rank: ClassId -> nat, c1: ClassId, c2: ClassId)
    requires Walkable(recs, rank) && c1 in recs && c2 in recs
    requires c2 in Supers(recs, rank, c1) && c1 in Supers(recs, rank, c2)
    ensures c1 == c2
  {
    var s1 := Supers(recs, rank, c1);
    var s2 := Supers(recs, rank, c2);
    var i :| 0 <= i < |s1| && s1[i] == c2;
    var j :| 0 <= j < |s2| && s2[j] == c1;
  }

  /** The loop of class_isKindOfClass: whether cls2 is met on the walk up from cls1. */
  method IsKindOf(recs: Records, ghost rank: ClassId -> nat, c1: ClassId, c2: ClassId) returns (b: bool)
    requires Walkable(recs, rank) && c1 in recs
    ensures b <==> c2 in Supers(recs, rank, c1)
  {
    ghost var s := Supers(recs, rank, c1);
    var iter: Option<ClassId> := Some(c1);
    ghost var d := 0;
    while iter.Some?
      invariant d <= |s| && iter == (if d < |s| then Some(s[d]) else None)
      invariant forall j :: 0 <= j < d ==> s[j] != c2
      decreases |s| - d
    {
      if iter.value == c2 {
        return true;
      }
      SupersNext(recs, rank, c1, d);
      iter := recs[iter.value].superclass;
      d := d + 1;
    }
    return false;
  }

  /** What objc_initialize_class(cls1) and then objc_initialize_class(cls2) leave: records, hook events and tables. */
  ghost function InitBoth(names: Names, recs: Records, reg: set<ClassId>, rank: ClassId -> nat, batches: Batches,
                          cats: map<string, seq<Category>>, bound: nat, uid: nat, st: Tables, c1: ClassId, c2: ClassId)
    : (Records, seq<Event>, Tables)
  {
    var a := ObjcInit(names, recs, reg, rank, batches, cats, bound, uid, st, c1);
    var b := ObjcInit(names, a.0, reg, rank, batches, cats, bound, uid, a.2, c2);
    (b.0, a.1 + b.1, b.2)
  }

  /** objc_initialize_class(c) as ObjcInit states it; k, another class record, stays one. */
  method InitializeKeeping(rt: Runtime, c: ClassId, ghost k: ClassId)
    requires rt.Valid() && IsClass(rt.recs, c) && c in rt.Registered() && IsClass(rt.recs, k)
    modifies rt`recs, rt`trace, rt`dtableOf, rt`dtables, rt`nextDt
    ensures rt.Valid() && rt.Registered() == old(rt.Registered())
    ensures IsClass(rt.recs, c) && IsClass(rt.recs, k)
    ensures rt.recs == ObjcInit(old(rt.Names()), old(rt.recs), old(rt.Registered()), rt.rank, rt.batches, rt.cats, rt.bound, rt.initializeUid, old(TablesOf(rt)), c).0
    ensures rt.trace == old(rt.trace) + ObjcInit(old(rt.Names()), old(rt.recs), old(rt.Registered()), rt.rank, rt.batches, rt.cats, rt.bound, rt.initializeUid, old(TablesOf(rt)), c).1
    ensures TablesOf(rt) == ObjcInit(old(rt.Names()), old(rt.recs), old(rt.Registered()), rt.rank, rt.batches, rt.cats, rt.bound, rt.initializeUid, old(TablesOf(rt)), c).2
  {
    ObjcInitializeClass(rt, c);
  }

  /** The two objc_initialize_class calls that begin class_isKindOfClass. */
  method InitializeBoth(rt: Runtime, c1: ClassId, c2: ClassId)
    requires rt.Valid() && IsClass(rt.recs, c1) && c1 in rt.Registered() && IsClass(rt.recs, c2) && c2 in rt.Registered()
    modifies rt`recs, rt`trace, rt`dtableOf, rt`dtables, rt`nextDt
    ensures rt.Valid() && IsClass(rt.recs, c1)
    ensures rt.recs == InitBoth(old(rt.Names()), old(rt.recs), old(rt.Registered()), rt.rank, rt.batches, rt.cats, rt.bound, rt.initializeUid, old(TablesOf(rt)), c1, c2).0
    ensures rt.trace == old(rt.trace) + InitBoth(old(rt.Names()), old(rt.recs), old(rt.Registered()), rt.rank, rt.batches, rt.cats, rt.bound, rt.initializeUid, old(TablesOf(rt)), c1, c2).1
    ensures TablesOf(rt) == InitBoth(old(rt.Names()), old(rt.recs), old(rt.Registered()), rt.rank, rt.batches, rt.cats, rt.bound, rt.initializeUid, old(TablesOf(rt)), c1, c2).2
  {
    ghost var names, recs0, reg, t0, st0 := rt.Names(), rt.recs, rt.Registered(), rt.trace, TablesOf(rt);
    InitializeKeeping(rt, c1, c2);
    ghost var r1, t1, st1 := rt.recs, rt.trace, TablesOf(rt);
    InitializeKeeping(rt, c2, c1);
    InitBothAfter(names, recs0, reg, rt.rank, rt.batches, rt.cats, rt.bound, rt.initializeUid, st0, c1, c2,
                  t0, r1, t1, st1, rt.recs, rt.trace, TablesOf(rt));
  }

  /** The states after the first and the second call compose to InitBoth. */
  lemma InitBothAfter(names: Names, recs: Records, reg: set<ClassId>, rank: ClassId -> nat, batches: Batches,
                      cats: map<string, seq<Category>>, bound: nat, uid: nat, st: Tables, c1: ClassId, c2: ClassId,
                      t0: seq<Event>, r1: Records, t1: seq<Event>, st1: Tables, r2: Records, t2: seq<Event>, st2: Tables)
    requires r1 == ObjcInit(names, recs, reg, rank, batches, cats, bound, uid, st, c1).0
    requires t1 == t0 + ObjcInit(names, recs, reg, rank, batches, cats, bound, uid, st, c1).1
    requires st1 == ObjcInit(names, recs, reg, rank, batches, cats, bound, uid, st, c1).2
    requires r2 == ObjcInit(names, r1, reg, rank, batches, cats, bound, uid, st1, c2).0
    requires t2 == t1 + ObjcInit(names, r1, reg, rank, batches, cats, bound, uid, st1, c2).1
    requires st2 == ObjcInit(names, r1, reg, rank, batches, cats, bound, uid, st1, c2).2
    ensures r2 == InitBoth(names, recs, reg, rank, batches, cats, bound, uid, st, c1, c2).0
    ensures t2 == t0 + InitBoth(names, recs, reg, rank, batches, cats, bound, uid, st, c1, c2).1
    ensures st2 == InitBoth(names, recs, reg, rank, batches, cats, bound, uid, st, c1, c2).2
  {
    var a := ObjcInit(names, recs, reg, rank, batches, cats, bound, uid, st, c1);
    var b := ObjcInit(names, r1, reg, rank, batches, cats, bound, uid, st1, c2);
    assert InitBoth(names, recs, reg, rank, batches, cats, bound, uid, st, c1, c2) == (b.0, a.1 + b.1, b.2);
    Loader.Assoc(t0, a.1, b.1);
  }

  /** class_isKindOfClass: objc_initialize_class on both classes, then the walk up from cls1. */
  method IsKindOfClass(rt: Runtime, c1: ClassId, c2: ClassId) returns (b: bool)
    requires rt.Valid() && IsClass(rt.recs, c1) && c1 in rt.Registered() && IsClass(rt.recs, c2) && c2 in rt.Registered()
    modifies rt`recs, rt`trace, rt`dtableOf, rt`dtables, rt`nextDt
    ensures rt.Valid() && Walkable(rt.recs, rt.rank) && c1 in rt.recs
    ensures b <==> c2 in Supers(rt.recs, rt.rank, c1)
    ensures rt.recs == InitBoth(old(rt.Names()), old(rt.recs), old(rt.Registered()), rt.rank, rt.batches, rt.cats, rt.bound, rt.initializeUid, old(TablesOf(rt)), c1, c2).0
    ensures rt.trace == old(rt.trace) + InitBoth(old(rt.Names()), old(rt.recs), old(rt.Registered()), rt.rank, rt.batches, rt.cats, rt.bound, rt.initializeUid, old(TablesOf(rt)), c1, c2).1
    ensures TablesOf(rt) == InitBoth(old(rt.Names()), old(rt.recs), old(rt.Registered()), rt.rank, rt.batches, rt.cats, rt.bound, rt.initializeUid, old(TablesOf(rt)), c1, c2).2
  {
    InitializeBoth(rt, c1, c2);
    ValidWalkable(rt);
    b := IsKindOf(rt.recs, rt.rank, c1, c2);
  }

  // ---------------------------------------------------------------------
  // class_getInstanceVariable

  /** r is the index of the first ivar named name; None when there is no ivar list or no such ivar. */
  predicate FirstIvar(ivars: Option<seq<Ivar>>, name: string, r: Option<nat>) {
    && (r.Some? ==> ivars.Some? && r.value < |ivars.value| && ivars.value[r.value].name == name &&
                    forall j :: 0 <= j < r.value ==> ivars.value[j].name != name)
    && (r.None? ==> ivars.None? || forall j :: 0 <= j < |ivars.value| ==> ivars.value[j].name != name)
  }

  /** The loop of class_getInstanceVariable over the ivar list, compared by name (strcmp). */
  method FindIvar(ivars: Option<seq<Ivar>>, name: string) returns (r: Option<nat>)
    ensures FirstIvar(ivars, name, r)
  {
    if ivars.None? {
      return None;
    }
    var list := ivars.value;
    var i := 0;
    while i < |list|
      invariant i <= |list|
      invariant forall j :: 0 <= j < i ==> list[j].name != name
    {
      if list[i].name == name {
        return Some(i);
      }
      i := i + 1;
    }
    return None;
  }

  /** class_getInstanceVariable: objc_initialize_class, then the ivar (as its index in the class's list) named name. */
  method GetInstanceVariable(rt: Runtime, c: ClassId, name: string) returns (r: Option<nat>)
    requires rt.Valid() && IsClass(rt.recs, c) && c in rt.Registered()
    modifies rt`recs, rt`trace, rt`dtableOf, rt`dtables, rt`nextDt
    ensures rt.Valid() && c in rt.recs
    ensures FirstIvar(rt.recs[c].ivars, name, r)
    ensures rt.recs == ObjcInit(old(rt.Names()), old(rt.recs), old(rt.Registered()), rt.rank, rt.batches, rt.cats, rt.bound, rt.initializeUid, old(TablesOf(rt)), c).0
    ensures rt.trace == old(rt.trace) + ObjcInit(old(rt.Names()), old(rt.recs), old(rt.Registered()), rt.rank, rt.batches, rt.cats, rt.bound, rt.initializeUid, old(TablesOf(rt)), c).1
    ensures TablesOf(rt) == ObjcInit(old(rt.Names()), old(rt.recs), old(rt.Registered()), rt.rank, rt.batches, rt.cats, rt.bound, rt.initializeUid, old(TablesOf(rt)), c).2
  {
    ObjcInitializeClass(rt, c);
    r := FindIvar(rt.recs[c].ivars, name);
  }

  // ---------------------------------------------------------------------
  // class_getInstanceMethod

  /** The two inner loops of class_getInstanceMethod: whether some slot of the chain is at address sel. */
  method ChainHolds(batches: Batches, chain: seq<BatchId>, sel: MethodRef) returns (found: bool)
    requires ChainIn(batches, chain)
    ensures found <==> sel in Refs(batches, chain)
  {
    RefsMembership(batches, chain, sel);
    var mi := 0;
    while mi < |chain|
      invariant mi <= |chain|
      invariant forall k :: 0 <= k < mi ==> !(chain[k] == sel.batch && sel.index < |batches[chain[k]]|)
    {
      var b := chain[mi];
      var i := 0;
      while i < |batches[b]|
        invariant i <= |batches[b]|
        invariant !(b == sel.batch && sel.index < i)
      {
        if MethodRef(b, i) == sel {
          return true;
        }
        i := i + 1;
      }
      mi := mi + 1;
    }
    return false;
  }

  /**
    * The outer loop of class_getInstanceMethod: the method whose selector
    * sits at address sel, when some class on the walk up from c holds that
    * slot in its own chain. The selector is compared by address, not uid.
    */
  method InstanceMethod(recs: Records, batches: Batches, ghost rank: ClassId -> nat, c: ClassId, sel: MethodRef)
    returns (r: Option<MethodRef>)
    requires Walkable(recs, rank) && ChainsIn(recs, batches) && c in recs
    ensures r.Some? ==> r.value == sel
    ensures r.Some? <==> exists k :: 0 <= k < |Supers(recs, rank, c)| &&
                                     sel in Refs(batches, recs[Supers(recs, rank, c)[k]].methodlist)
  {
    ghost var s := Supers(recs, rank, c);
    var iter: Option<ClassId> := Some(c);
    ghost var d := 0;
    while iter.Some?
      invariant d <= |s| && iter == (if d < |s| then Some(s[d]) else None)
      invariant forall j :: 0 <= j < d ==> sel !in Refs(batches, recs[s[j]].methodlist)
      decreases |s| - d
    {
      var found := ChainHolds(batches, recs[iter.value].methodlist, sel);
      if found {
        assert sel in Refs(batches, recs[s[d]].methodlist);
        return Some(sel);
      }
      SupersNext(recs, rank, c, d);
      iter := recs[iter.value].superclass;
      d := d + 1;
    }
    return None;
  }

  /** class_getInstanceMethod: objc_initialize_class, then the walk up from cls looking for the slot at address sel. */
  method GetInstanceMethod(rt: Runtime, c: ClassId, sel: MethodRef) returns (r: Option<MethodRef>)
    requires rt.Valid() && IsClass(rt.recs, c) && c in rt.Registered()
    modifies rt`recs, rt`trace, rt`dtableOf, rt`dtables, rt`nextDt
    ensures rt.Valid() && Walkable(rt.recs, rt.rank) && ChainsIn(rt.recs, rt.batches) && c in rt.recs
    ensures r.Some? ==> r.value == sel
    ensures r.Some? <==> exists k :: 0 <= k < |Supers(rt.recs, rt.rank, c)| &&
                                     sel in Refs(rt.batches, rt.recs[Supers(rt.recs, rt.rank, c)[k]].methodlist)
    ensures rt.recs == ObjcInit(old(rt.Names()), old(rt.recs), old(rt.Registered()), rt.rank, rt.batches, rt.cats, rt.bound, rt.initializeUid, old(TablesOf(rt)), c).0
    ensures rt.trace == old(rt.trace) + ObjcInit(old(rt.Names()), old(rt.recs), old(rt.Registered()), rt.rank, rt.batches, rt.cats, rt.bound, rt.initializeUid, old(TablesOf(rt)), c).1
    ensures TablesOf(rt) == ObjcInit(old(rt.Names()), old(rt.recs), old(rt.Registered()), rt.rank, rt.batches, rt.cats, rt.bound, rt.initializeUid, old(TablesOf(rt)), c).2
  {
    ObjcInitializeClass(rt, c);
    ValidWalkable(rt);
    r := InstanceMethod(rt.recs, rt.batches, rt.rank, c, sel);
  }

  // ---------------------------------------------------------------------
  // object_isMethodFromClass

  /** Record x's own chain has a method with the uid. */
  predicate OwnChainHas(recs: Records, batches: Batches, x: ClassId, uid: nat)
    requires x in recs && ChainIn(batches, recs[x].methodlist)
  {
    FirstRef(batches, recs[x].methodlist, uid).Some?
  }

  /** For each record of s, whether its own chain has a method with the uid. */
  ghost function OwnChainHasAlong(recs: Records, batches: Batches, s: seq<ClassId>, uid: nat): (bs: seq<bool>)
    requires ChainsIn(recs, batches) && forall i :: 0 <= i < |s| ==> s[i] in recs
    ensures |bs| == |s| && forall i :: 0 <= i < |s| ==> bs[i] == OwnChainHas(recs, batches, s[i], uid)
  {
    seq(|s|, i requires 0 <= i < |s| => OwnChainHas(recs, batches, s[i], uid))
  }

  /** The position of the first true flag at or after i. */
  function FirstTrue(bs: seq<bool>, i: nat): (r: Option<nat>)
    requires i <= |bs|
    ensures r.Some? ==> i <= r.value < |bs| && bs[r.value] && forall j :: i <= j < r.value ==> !bs[j]
    ensures r.None? ==> forall j :: i <= j < |bs| ==> !bs[j]
    decreases |bs| - i
  {
    if i == |bs| then None else if bs[i] then Some(i) else FirstTrue(bs, i + 1)
  }

  /**
    * The position, on the walk up from c, of the first record whose own
    * chain has a method with the uid: the class the method is taken from.
    */
  ghost function Provider(recs: Records, batches: Batches, rank: ClassId -> nat, c: ClassId, uid: nat): (p: Option<nat>)
    requires Walkable(recs, rank) && ChainsIn(recs, batches) && c in recs
    ensures p.Some? ==> p.value < |Supers(recs, rank, c)|
  {
    FirstTrue(OwnChainHasAlong(recs, batches, Supers(recs, rank, c), uid), 0)
  }

  /**
    * The loops of object_isMethodFromClass, from the object's class c: walk
    * up until a class whose own chain has a method with the uid, and answer
    * whether that class is named fromClass (strcmp); NO when no class has one.
    */
  method MethodFromClass(recs: Records, batches: Batches, ghost rank: ClassId -> nat, c: ClassId, uid: nat, fromClass: string)
    returns (b: bool)
    requires Walkable(recs, rank) && ChainsIn(recs, batches) && c in recs
    ensures var p := Provider(recs, batches, rank, c, uid);
            b <==> p.Some? && recs[Supers(recs, rank, c)[p.value]].name == fromClass
  {
    ghost var s := Supers(recs, rank, c);
    ghost var bs := OwnChainHasAlong(recs, batches, s, uid);
    var iter: Option<ClassId> := Some(c);
    ghost var d := 0;
    while iter.Some?
      invariant d <= |s| && iter == (if d < |s| then Some(s[d]) else None)
      invariant FirstTrue(bs, 0) == FirstTrue(bs, d)
      decreases |s| - d
    {
      var x := iter.value;
      var f := ScanChain(batches, recs[x].methodlist, uid);
      if f.Some? {
        return recs[x].name == fromClass;
      }
      SupersNext(recs, rank, c, d);
      iter := recs[x].superclass;
      d := d + 1;
    }
    return false;
  }

  /** object_isMethodFromClass on an object whose class is c. */
  method IsMethodFromClass(rt: Runtime, c: ClassId, uid: nat, fromClass: string) returns (b: bool)
    requires rt.Valid() && c in rt.recs
    ensures Walkable(rt.recs, rt.rank) && ChainsIn(rt.recs, rt.batches)
    ensures var p := Provider(rt.recs, rt.batches, rt.rank, c, uid);
            b <==> p.Some? && rt.recs[Supers(rt.recs, rt.rank, c)[p.value]].name == fromClass
  {
    ValidWalkable(rt);
    b := MethodFromClass(rt.recs, rt.batches, rt.rank, c, uid, fromClass);
  }

  // ---------------------------------------------------------------------
  // objc_get_type_encoding

  /**
    * objc_get_type_encoding: the type string of the first method with the
    * uid in the record's own chain, else in its categories' instance
    * methods (for a metaclass too); None (NULL) when there is none.
    */
  method GetTypeEncoding(rt: Runtime, c: ClassId, uid: nat) returns (types: Option<string>)
    requires rt.Valid() && c in rt.recs
    ensures ChainIn(rt.batches, rt.recs[c].methodlist) && CatsIn(rt.batches, CategoriesOf(rt.cats, rt.recs[c].name))
    ensures var ms := SearchOrder(rt.batches, rt.recs[c].methodlist, CategoriesOf(rt.cats, rt.recs[c].name), true);
            var k := FirstMatch(ms, uid);
            types == if k.Some? then Some(ms[k.value].sel.types) else None
  {
    var cs := CategoriesOf(rt.cats, rt.recs[c].name);
    CategoriesIn(rt.recs, rt.batches, rt.cats, rt.recs[c].name);
    var r := Search(rt.batches, rt.recs[c].methodlist, cs, true, uid);
    if r.Some? {
      types := Some(At(rt.batches, r.value).sel.types);
    } else {
      types := None;
    }
  }

  // ---------------------------------------------------------------------
  // objc_getClassList

  /** One occupied bucket of the class table: a name and the class it is bound to. */
  datatype Slot = Slot(key: string, obj: ClassId)

  /** The buckets `data[0 .. last_idx]` hold exactly the table's bindings, each name once. */
  predicate SlotsHold(slots: seq<Option<Slot>>, names: Names) {
    && (forall i :: 0 <= i < |slots| && slots[i].Some? ==>
          slots[i].value.key in names && names[slots[i].value.key] == slots[i].value.obj)
    && (forall i, j :: 0 <= i < j < |slots| && slots[i].Some? && slots[j].Some? ==> slots[i].value.key != slots[j].value.key)
    && (forall n :: n in names ==> exists i :: 0 <= i < |slots| && slots[i] == Some(Slot(n, names[n])))
  }

  /** The classes of the occupied buckets, in bucket order. */
  function Occupied(slots: seq<Option<Slot>>): (r: seq<ClassId>)
    ensures |r| <= |slots|
  {
    if slots == [] then []
    else
      var last := slots[|slots| - 1];
      Occupied(slots[..|slots| - 1]) + (if last.Some? then [last.value.obj] else [])
  }

  /** The names of the occupied buckets. */
  function KeysOf(slots: seq<Option<Slot>>): (r: set<string>)
    ensures forall n :: n in r <==> exists i :: 0 <= i < |slots| && slots[i].Some? && slots[i].value.key == n
  {
    if slots == [] then {}
    else
      var init := slots[..|slots| - 1];
      var last := slots[|slots| - 1];
      var r := KeysOf(init) + (if last.Some? then {last.value.key} else {});
      assert forall n :: n in r <==> exists i :: 0 <= i < |slots| && slots[i].Some? && slots[i].value.key == n by {
        forall n | exists i :: 0 <= i < |slots| && slots[i].Some? && slots[i].value.key == n
          ensures n in r
        {
          var i :| 0 <= i < |slots| && slots[i].Some? && slots[i].value.key == n;
          if i < |slots| - 1 {
            assert init[i] == slots[i];
          }
        }
      }
      r
  }

  /** With each name in one bucket, there are as many occupied buckets as names. */
  lemma {:induction false} OccupiedCount(slots: seq<Option<Slot>>)
    requires forall i, j :: 0 <= i < j < |slots| && slots[i].Some? && slots[j].Some? ==> slots[i].value.key != slots[j].value.key
    ensures |Occupied(slots)| == |KeysOf(slots)|
  {
    if slots != [] {
      var init := slots[..|slots| - 1];
      var last := slots[|slots| - 1];
      OccupiedCount(init);
    }
  }

  /** The table's names are the names of its occupied buckets. */
  lemma NamesAreKeys(slots: seq<Option<Slot>>, names: Names)
    requires SlotsHold(slots, names)
    ensures names.Keys == KeysOf(slots)
  {
    forall n | n in names
      ensures n in KeysOf(slots)
    {
      var i :| 0 <= i < |slots| && slots[i] == Some(Slot(n, names[n]));
      assert slots[i].value.key == n;
    }
  }

  function Min(a: int, b: int): int {
    if a < b then a else b
  }

  /**
    * objc_getClassList over the buckets of the class table: count the
    * occupied buckets (one per name, aliases included), and, when a buffer
    * is given and maxCount is positive, write the first maxCount of their
    * classes in bucket order. 0 when there is no class table yet.
    */
  method GetClassList(rt: Runtime, slots: seq<Option<Slot>>, hasBuffer: bool, maxCount: int) returns (ret: nat, written: seq<ClassId>)
    requires rt.table.Some? ==> SlotsHold(slots, rt.table.value)
    ensures rt.table.None? ==> ret == 0 && written == []
    ensures rt.table.Some? ==> ret == |rt.Names()|
    ensures rt.table.Some? ==>
              written == if hasBuffer && maxCount > 0 then Occupied(slots)[..Min(maxCount, |Occupied(slots)|)] else []
  {
    if rt.table.None? {
      return 0, [];
    }
    ret := 0;
    written := [];
    var mc := maxCount;
    var i := 0;
    while i < |slots|
      invariant i <= |slots| && ret == |Occupied(slots[..i])|
      invariant !(hasBuffer && maxCount > 0) ==> written == [] && mc == maxCount
      invariant hasBuffer && maxCount > 0 ==>
                  written == Occupied(slots[..i])[..Min(maxCount, ret)] && mc == maxCount - Min(maxCount, ret)
    {
      assert slots[..i + 1][..i] == slots[..i];
      if slots[i].Some? {
        if hasBuffer && mc > 0 {
          written := written + [slots[i].value.obj];
          mc := mc - 1;
        }
        ret := ret + 1;
      }
      i := i + 1;
    }
    assert slots[..i] == slots;
    OccupiedCount(slots);
    NamesAreKeys(slots, rt.table.value);
  }
}
