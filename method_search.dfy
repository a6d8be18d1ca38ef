/**
  * The search class_replaceMethod and objc_get_type_encoding make for a
  * selector uid: down a record's own method chain, then down the chain of
  * each category objc_categories_for_class returns for the record's name,
  * category after category. `isClass` picks the categories' instance
  * methods (true) or class methods (false), as CatChain does for dispatch.
  */
module MethodSearch {
  import opened RuntimeTypes
  import opened MethodLists
  import opened ObjcRuntime
  import opened Dispatch

  /** The categories found for any name have their chains in the batches. */
  lemma CategoriesIn(recs: map<ClassId, ClassRec>, batches: Batches, cats: map<string, seq<Category>>, name: string)
    requires ChainsOk(recs, batches, cats)
    ensures CatsIn(batches, CategoriesOf(cats, name))
  {
    var cs := CategoriesOf(cats, name);
    forall i | 0 <= i < |cs|
      ensures ChainIn(batches, cs[i].instanceMethods) && ChainIn(batches, cs[i].classMethods)
    {
      assert cats[name][i] == cs[i];
    }
  }

  /** The methods the search visits, in the order it visits them. */
  function SearchOrder(batches: Batches, own: seq<BatchId>, cs: seq<Category>, isClass: bool): seq<Method>
    requires ChainIn(batches, own) && CatsIn(batches, cs)
  {
    Flatten(batches, own) + CatMethods(batches, cs, isClass, |cs|)
  }

  /** The methods of categories i up to n, category after category. */
  function CatTail(batches: Batches, cs: seq<Category>, isClass: bool, i: nat, n: nat): seq<Method>
    requires CatsIn(batches, cs) && i <= n <= |cs|
    decreases n
  {
    if n == i then [] else CatTail(batches, cs, isClass, i, n - 1) + Flatten(batches, CatChain(cs[n - 1], isClass))
  }

  /** The methods of the first n categories are those of the first i followed by the rest. */
  lemma {:induction false} CatMethodsSplit(batches: Batches, cs: seq<Category>, isClass: bool, i: nat, n: nat)
    requires CatsIn(batches, cs) && i <= n <= |cs|
    ensures CatMethods(batches, cs, isClass, n) == CatMethods(batches, cs, isClass, i) + CatTail(batches, cs, isClass, i, n)
    decreases n
  {
    if i < n {
      CatMethodsSplit(batches, cs, isClass, i, n - 1);
      var a := CatMethods(batches, cs, isClass, i);
      var t := CatTail(batches, cs, isClass, i, n - 1);
      var f := Flatten(batches, CatChain(cs[n - 1], isClass));
      assert (a + t) + f == a + (t + f);
    }
  }

  /** Regrouping four runs laid end to end. */
  lemma Regroup<T>(x: seq<T>, y: seq<T>, z: seq<T>, w: seq<T>)
    ensures x + ((y + z) + w) == ((x + y) + z) + w
  {
  }

  /** The j-th element of the third of four runs laid end to end. */
  lemma ThirdRunAt<T>(x: seq<T>, y: seq<T>, z: seq<T>, w: seq<T>, j: nat)
    requires j < |z|
    ensures |x| + |y| + j < |x + ((y + z) + w)|
    ensures (x + ((y + z) + w))[|x| + |y| + j] == z[j]
  {
    Regroup(x, y, z, w);
    assert (((x + y) + z) + w)[|x + y| + j] == z[j];
  }

  /** The search visits the own chain and the first i categories, then category i's chain, then the rest. */
  lemma SearchOrderAt(batches: Batches, own: seq<BatchId>, cs: seq<Category>, isClass: bool, i: nat)
    requires ChainIn(batches, own) && CatsIn(batches, cs) && i < |cs|
    ensures ChainIn(batches, CatChain(cs[i], isClass))
    ensures SearchOrder(batches, own, cs, isClass) ==
              ((Flatten(batches, own) + CatMethods(batches, cs, isClass, i)) + Flatten(batches, CatChain(cs[i], isClass)))
              + CatTail(batches, cs, isClass, i + 1, |cs|)
  {
    CatMethodsSplit(batches, cs, isClass, i + 1, |cs|);
    var own1 := Flatten(batches, own);
    var a := CatMethods(batches, cs, isClass, i);
    var q := Flatten(batches, CatChain(cs[i], isClass));
    var t := CatTail(batches, cs, isClass, i + 1, |cs|);
    Regroup(own1, a, q, t);
  }

  /**
    * The category part of the search from category i on: the first method
    * with the uid in category i's chain, else in the categories after it.
    */
  function CatsFirst(batches: Batches, cs: seq<Category>, isClass: bool, uid: nat, i: nat): (r: Option<MethodRef>)
    requires CatsIn(batches, cs) && i <= |cs|
    ensures r.Some? ==> ValidRef(batches, r.value) && At(batches, r.value).sel.uid == uid
    decreases |cs| - i
  {
    if i == |cs| then None
    else
      var f := FirstRef(batches, CatChain(cs[i], isClass), uid);
      if f.Some? then f else CatsFirst(batches, cs, isClass, uid, i + 1)
  }

  /** With no match in p, the first match of p, q and t laid end to end is q's, shifted past p. */
  lemma {:induction false} FirstMatchAfter(p: seq<Method>, q: seq<Method>, t: seq<Method>, uid: nat)
    requires FirstMatch(p, uid).None? && FirstMatch(q, uid).Some?
    ensures FirstMatch((p + q) + t, uid) == Some(|p| + FirstMatch(q, uid).value)
    ensures ((p + q) + t)[|p| + FirstMatch(q, uid).value] == q[FirstMatch(q, uid).value]
  {
    FirstMatchAppend(p, q, uid);
    FirstMatchAppend(p + q, t, uid);
    var k := FirstMatch(q, uid).value;
    assert ((p + q) + t)[|p| + k] == (p + q)[|p| + k];
  }

  /** A hit in category i's chain, after no match in the own chain and the categories before it, is the search's first match. */
  lemma CatHit(batches: Batches, own: seq<BatchId>, cs: seq<Category>, isClass: bool, uid: nat, i: nat)
    requires ChainIn(batches, own) && CatsIn(batches, cs) && i < |cs|
    requires FirstMatch(Flatten(batches, own) + CatMethods(batches, cs, isClass, i), uid).None?
    requires FirstRef(batches, CatChain(cs[i], isClass), uid).Some?
    ensures FirstMatch(SearchOrder(batches, own, cs, isClass), uid).Some?
    ensures At(batches, FirstRef(batches, CatChain(cs[i], isClass), uid).value) ==
              SearchOrder(batches, own, cs, isClass)[FirstMatch(SearchOrder(batches, own, cs, isClass), uid).value]
  {
    SearchOrderAt(batches, own, cs, isClass, i);
    var p := Flatten(batches, own) + CatMethods(batches, cs, isClass, i);
    var q := Flatten(batches, CatChain(cs[i], isClass));
    var t := CatTail(batches, cs, isClass, i + 1, |cs|);
    var so := SearchOrder(batches, own, cs, isClass);
    assert so == (p + q) + t;
    FirstMatchAfter(p, q, t, uid);
  }

  /** The category part of the search stops at the first match of the whole search once nothing before category i matched. */
  lemma {:induction false} CatsFirstMatch(batches: Batches, own: seq<BatchId>, cs: seq<Category>, isClass: bool, uid: nat, i: nat)
    requires ChainIn(batches, own) && CatsIn(batches, cs) && i <= |cs|
    requires FirstMatch(Flatten(batches, own) + CatMethods(batches, cs, isClass, i), uid).None?
    ensures CatsFirst(batches, cs, isClass, uid, i).None? <==> FirstMatch(SearchOrder(batches, own, cs, isClass), uid).None?
    ensures CatsFirst(batches, cs, isClass, uid, i).Some? ==>
              (FirstMatch(SearchOrder(batches, own, cs, isClass), uid).Some? &&
               At(batches, CatsFirst(batches, cs, isClass, uid, i).value) ==
               SearchOrder(batches, own, cs, isClass)[FirstMatch(SearchOrder(batches, own, cs, isClass), uid).value])
    decreases |cs| - i
  {
    if i == |cs| {
      assert SearchOrder(batches, own, cs, isClass) == Flatten(batches, own) + CatMethods(batches, cs, isClass, i);
    } else if FirstRef(batches, CatChain(cs[i], isClass), uid).Some? {
      CatHit(batches, own, cs, isClass, uid, i);
    } else {
      var p := Flatten(batches, own) + CatMethods(batches, cs, isClass, i);
      CatMethodsStep(batches, Flatten(batches, own), cs, isClass, i);
      FirstMatchAppend(p, Flatten(batches, CatChain(cs[i], isClass)), uid);
      CatsFirstMatch(batches, own, cs, isClass, uid, i + 1);
    }
  }

  /**
    * Where the search stops: the address of the first method with the uid
    * among those it visits (the own chain, then each category's chain);
    * None when none of them carries it.
    */
  function SearchFirst(batches: Batches, own: seq<BatchId>, cs: seq<Category>, isClass: bool, uid: nat): (r: Option<MethodRef>)
    requires ChainIn(batches, own) && CatsIn(batches, cs)
    ensures r.Some? ==> ValidRef(batches, r.value) && At(batches, r.value).sel.uid == uid
    ensures r.None? <==> FirstMatch(SearchOrder(batches, own, cs, isClass), uid).None?
    ensures r.Some? ==> (FirstMatch(SearchOrder(batches, own, cs, isClass), uid).Some? &&
                         At(batches, r.value) ==
                         SearchOrder(batches, own, cs, isClass)[FirstMatch(SearchOrder(batches, own, cs, isClass), uid).value])
  {
    var f := FirstRef(batches, own, uid);
    FirstMatchAppend(Flatten(batches, own), CatMethods(batches, cs, isClass, |cs|), uid);
    if f.Some? then f
    else
      assert Flatten(batches, own) + CatMethods(batches, cs, isClass, 0) == Flatten(batches, own);
      CatsFirstMatch(batches, own, cs, isClass, uid, 0);
      CatsFirst(batches, cs, isClass, uid, 0)
  }

  /**
    * The search loops of class_replaceMethod and objc_get_type_encoding: the
    * own chain first, then each category's chain, stopping at the first
    * method that carries the uid.
    */
  method Search(batches: Batches, own: seq<BatchId>, cs: seq<Category>, isClass: bool, uid: nat) returns (r: Option<MethodRef>)
    requires ChainIn(batches, own) && CatsIn(batches, cs)
    ensures r == SearchFirst(batches, own, cs, isClass, uid)
  {
    r := ScanChain(batches, own, uid);
    if r.Some? {
      return;
    }
    var i := 0;
    while i < |cs|
      invariant i <= |cs| && r.None?
      invariant SearchFirst(batches, own, cs, isClass, uid) == CatsFirst(batches, cs, isClass, uid, i)
    {
      r := ScanChain(batches, CatChain(cs[i], isClass), uid);
      if r.Some? {
        return;
      }
      i := i + 1;
    }
  }

  // ---------------------------------------------------------------------
  // The search for one record

  /** The methods the search visits for record c: its own chain, then its categories' chains of one kind. */
  function ClassOrder(recs: map<ClassId, ClassRec>, batches: Batches, cats: map<string, seq<Category>>, c: ClassId, isClass: bool)
    : seq<Method>
    requires c in recs && ChainsOk(recs, batches, cats)
  {
    CategoriesIn(recs, batches, cats, recs[c].name);
    SearchOrder(batches, recs[c].methodlist, CategoriesOf(cats, recs[c].name), isClass)
  }

  /** Where the search for record c stops: the address of the first method with the uid it visits. */
  function ClassSearch(recs: map<ClassId, ClassRec>, batches: Batches, cats: map<string, seq<Category>>, c: ClassId,
                       isClass: bool, uid: nat): (r: Option<MethodRef>)
    requires c in recs && ChainsOk(recs, batches, cats)
    ensures r.Some? ==> ValidRef(batches, r.value) && At(batches, r.value).sel.uid == uid
    ensures r.None? <==> FirstMatch(ClassOrder(recs, batches, cats, c, isClass), uid).None?
    ensures r.Some? ==> (FirstMatch(ClassOrder(recs, batches, cats, c, isClass), uid).Some? &&
                         At(batches, r.value) ==
                         ClassOrder(recs, batches, cats, c, isClass)[FirstMatch(ClassOrder(recs, batches, cats, c, isClass), uid).value])
  {
    CategoriesIn(recs, batches, cats, recs[c].name);
    SearchFirst(batches, recs[c].methodlist, CategoriesOf(cats, recs[c].name), isClass, uid)
  }

  // ---------------------------------------------------------------------
  // Writing imps does not move the search

  /** Two stores with the same batches, the same counts and the same selectors at every slot. */
  ghost predicate SameShape(b1: Batches, b2: Batches) {
    && b1.Keys == b2.Keys
    && (forall b :: b in b1 ==> |b2[b]| == |b1[b]|)
    && (forall b, i {:trigger b2[b][i]} :: b in b1 && 0 <= i < |b1[b]| ==> b2[b][i].sel == b1[b][i].sel)
  }

  /** Writing one imp keeps the shape. */
  lemma SetImpShape(batches: Batches, m: MethodRef, imp: Imp)
    requires ValidRef(batches, m)
    ensures SameShape(batches, SetImp(batches, m, imp))
  {
    var r: Batches := SetImp(batches, m, imp);
    forall b: BatchId, i: int | b in batches && 0 <= i < |batches[b]|
      ensures r[b][i].sel == batches[b][i].sel
    {
      var x := MethodRef(b, i);
      assert ValidRef(batches, x);
      assert At(r, x) == r[b][i] && At(batches, x) == batches[b][i];
    }
  }

  /** Exchanging two imps keeps the shape. */
  lemma ExchangeShape(batches: Batches, m1: MethodRef, m2: MethodRef)
    requires ValidRef(batches, m1) && ValidRef(batches, m2)
    ensures SameShape(batches, Exchange(batches, m1, m2))
  {
    var r: Batches := Exchange(batches, m1, m2);
    forall b: BatchId, i: int | b in batches && 0 <= i < |batches[b]|
      ensures r[b][i].sel == batches[b][i].sel
    {
      var x := MethodRef(b, i);
      assert ValidRef(batches, x);
      assert At(r, x) == r[b][i] && At(batches, x) == batches[b][i];
    }
  }

  /** Same shape, same addresses and same selectors down any chain. */
  lemma {:induction false} ShapeFlatten(b1: Batches, b2: Batches, chain: seq<BatchId>)
    requires ChainIn(b1, chain) && SameShape(b1, b2)
    ensures ChainIn(b2, chain) && Refs(b2, chain) == Refs(b1, chain)
    ensures |Flatten(b2, chain)| == |Flatten(b1, chain)|
    ensures forall k :: 0 <= k < |Flatten(b1, chain)| ==> Flatten(b2, chain)[k].sel == Flatten(b1, chain)[k].sel
  {
    if chain != [] {
      var pre := chain[..|chain| - 1];
      var b := chain[|chain| - 1];
      ShapeFlatten(b1, b2, pre);
      var f1 := Flatten(b1, pre);
      var f2 := Flatten(b2, pre);
      forall k | 0 <= k < |Flatten(b1, chain)|
        ensures Flatten(b2, chain)[k].sel == Flatten(b1, chain)[k].sel
      {
        if k >= |f1| {
          assert Flatten(b1, chain)[k] == b1[b][k - |f1|];
          assert Flatten(b2, chain)[k] == b2[b][k - |f1|];
        } else {
          assert Flatten(b1, chain)[k] == f1[k];
          assert Flatten(b2, chain)[k] == f2[k];
        }
      }
    }
  }

  /** The first match depends on the selectors only. */
  lemma FirstMatchSels(ms1: seq<Method>, ms2: seq<Method>, uid: nat)
    requires |ms1| == |ms2| && forall k :: 0 <= k < |ms1| ==> ms2[k].sel == ms1[k].sel
    ensures FirstMatch(ms2, uid) == FirstMatch(ms1, uid)
  {
    if FirstMatch(ms1, uid).Some? {
      FirstMatchIs(ms2, uid, FirstMatch(ms1, uid).value);
    } else {
      assert forall j :: 0 <= j < |ms2| ==> ms2[j].sel.uid != uid by {
        forall j | 0 <= j < |ms2|
          ensures ms2[j].sel.uid != uid
        {
          assert ms2[j].sel == ms1[j].sel;
        }
      }
    }
  }

  /** Same shape, same first address down a chain. */
  lemma ShapeFirstRef(b1: Batches, b2: Batches, chain: seq<BatchId>, uid: nat)
    requires ChainIn(b1, chain) && SameShape(b1, b2)
    ensures ChainIn(b2, chain) && FirstRef(b2, chain, uid) == FirstRef(b1, chain, uid)
  {
    ShapeFlatten(b1, b2, chain);
    FirstMatchSels(Flatten(b1, chain), Flatten(b2, chain), uid);
  }

  /** Same shape, same stop in the categories from i on. */
  lemma {:induction false} ShapeCatsFirst(b1: Batches, b2: Batches, cs: seq<Category>, isClass: bool, uid: nat, i: nat)
    requires CatsIn(b1, cs) && SameShape(b1, b2) && i <= |cs|
    ensures CatsIn(b2, cs) && CatsFirst(b2, cs, isClass, uid, i) == CatsFirst(b1, cs, isClass, uid, i)
    decreases |cs| - i
  {
    assert CatsIn(b2, cs) by {
      forall j | 0 <= j < |cs|
        ensures ChainIn(b2, cs[j].instanceMethods) && ChainIn(b2, cs[j].classMethods)
      {
        ShapeFlatten(b1, b2, cs[j].instanceMethods);
        ShapeFlatten(b1, b2, cs[j].classMethods);
      }
    }
    if i < |cs| {
      ShapeFirstRef(b1, b2, CatChain(cs[i], isClass), uid);
      ShapeCatsFirst(b1, b2, cs, isClass, uid, i + 1);
    }
  }

  /** Same shape, the same chains are made of existing batches. */
  lemma ShapeKeepsChains(recs: map<ClassId, ClassRec>, b1: Batches, b2: Batches, cats: map<string, seq<Category>>)
    requires ChainsOk(recs, b1, cats) && SameShape(b1, b2)
    ensures ChainsOk(recs, b2, cats)
  {
    forall x | x in recs
      ensures ChainIn(b2, recs[x].methodlist)
    {
      ShapeFlatten(b1, b2, recs[x].methodlist);
    }
    forall n, i | n in cats && 0 <= i < |cats[n]|
      ensures ChainIn(b2, cats[n][i].instanceMethods) && ChainIn(b2, cats[n][i].classMethods)
    {
      ShapeFlatten(b1, b2, cats[n][i].instanceMethods);
      ShapeFlatten(b1, b2, cats[n][i].classMethods);
    }
  }

  /** Same shape, same stop for record c's search. */
  lemma ShapeClassSearch(recs: map<ClassId, ClassRec>, b1: Batches, b2: Batches, cats: map<string, seq<Category>>,
                         c: ClassId, isClass: bool, uid: nat)
    requires c in recs && ChainsOk(recs, b1, cats) && SameShape(b1, b2)
    ensures ChainsOk(recs, b2, cats)
    ensures ClassSearch(recs, b2, cats, c, isClass, uid) == ClassSearch(recs, b1, cats, c, isClass, uid)
  {
    ShapeKeepsChains(recs, b1, b2, cats);
    var cs := CategoriesOf(cats, recs[c].name);
    CategoriesIn(recs, b1, cats, recs[c].name);
    ShapeFirstRef(b1, b2, recs[c].methodlist, uid);
    ShapeCatsFirst(b1, b2, cs, isClass, uid, 0);
  }
}
