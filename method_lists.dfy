/**
  * Method batches (`struct objc_method_list`) and the walks class.c makes
  * over a chain of them. A chain is the sequence of batch identities that the
  * `next` links visit, in link order; a batch holds `count` methods, so its
  * count is the length of its sequence. Dispatch tables are maps from the
  * 32-bit dispatch key of a selector to an implementation.
  */
module MethodLists {
  import opened RuntimeTypes

  type Batches = map<BatchId, seq<Method>>
  type Table = map<nat, Imp>

  predicate ChainIn(batches: Batches, chain: seq<BatchId>) {
    forall i :: 0 <= i < |chain| ==> chain[i] in batches
  }

  /** The `(uint32_t)` cast applied to a selector uid before it indexes a dispatch table. */
  function DtKey(uid: nat): nat {
    uid % U32
  }

  /** The methods of a chain in the order the `next` links visit them. */
  function Flatten(batches: Batches, chain: seq<BatchId>): seq<Method>
    requires ChainIn(batches, chain)
  {
    if chain == [] then [] else Flatten(batches, chain[..|chain| - 1]) + batches[chain[|chain| - 1]]
  }

  /** The addresses of those methods, in the same order. */
  function Refs(batches: Batches, chain: seq<BatchId>): seq<MethodRef>
    requires ChainIn(batches, chain)
  {
    if chain == [] then []
    else
      var b := chain[|chain| - 1];
      Refs(batches, chain[..|chain| - 1]) + BatchRefs(b, |batches[b]|)
  }

  /** The addresses of the first n slots of batch b. */
  function BatchRefs(b: BatchId, n: nat): (r: seq<MethodRef>)
    ensures |r| == n && forall i :: 0 <= i < n ==> r[i] == MethodRef(b, i)
  {
    if n == 0 then [] else BatchRefs(b, n - 1) + [MethodRef(b, n - 1)]
  }

  /** The sum of the batch counts. */
  function SumCounts(batches: Batches, chain: seq<BatchId>): nat
    requires ChainIn(batches, chain)
  {
    if chain == [] then 0 else SumCounts(batches, chain[..|chain| - 1]) + |batches[chain[|chain| - 1]]|
  }

  predicate ValidRef(batches: Batches, m: MethodRef) {
    m.batch in batches && m.index < |batches[m.batch]|
  }

  function At(batches: Batches, m: MethodRef): Method
    requires ValidRef(batches, m)
  {
    batches[m.batch][m.index]
  }

  /** Flattening lists every method once, at the address Refs gives, and the count is the sum of the batch counts. */
  lemma {:induction false} RefsAgree(batches: Batches, chain: seq<BatchId>)
    requires ChainIn(batches, chain)
    ensures |Refs(batches, chain)| == |Flatten(batches, chain)| == SumCounts(batches, chain)
    ensures forall k :: 0 <= k < |Refs(batches, chain)| ==>
              ValidRef(batches, Refs(batches, chain)[k]) && At(batches, Refs(batches, chain)[k]) == Flatten(batches, chain)[k]
  {
    if chain != [] {
      var pre := chain[..|chain| - 1];
      RefsAgree(batches, pre);
    }
  }

  /** As many addresses as methods. */
  lemma {:induction false} RefsCount(batches: Batches, chain: seq<BatchId>)
    requires ChainIn(batches, chain)
    ensures |Refs(batches, chain)| == |Flatten(batches, chain)|
  {
    if chain != [] {
      RefsCount(batches, chain[..|chain| - 1]);
    }
  }

  /** A method address is listed by Refs exactly when it lies in one of the chain's batches. */
  lemma {:induction false} RefsMembership(batches: Batches, chain: seq<BatchId>, m: MethodRef)
    requires ChainIn(batches, chain)
    ensures m in Refs(batches, chain) <==> m.batch in chain && ValidRef(batches, m)
  {
    if chain != [] {
      var pre := chain[..|chain| - 1];
      var b := chain[|chain| - 1];
      RefsMembership(batches, pre, m);
      assert chain == pre + [b];
      if m.batch == b && ValidRef(batches, m) {
        assert BatchRefs(b, |batches[b]|)[m.index] == m;
      }
    }
  }

  /** The methods of a chain are those of a prefix followed by those of the rest. */
  lemma {:induction false} FlattenSplit(batches: Batches, chain: seq<BatchId>, j: nat)
    requires ChainIn(batches, chain) && j <= |chain|
    ensures Flatten(batches, chain) == Flatten(batches, chain[..j]) + Flatten(batches, chain[j..])
    decreases |chain|
  {
    if j == |chain| {
      assert chain[..j] == chain && chain[j..] == [];
    } else {
      var init := chain[..|chain| - 1];
      FlattenSplit(batches, init, j);
      assert init[..j] == chain[..j];
      assert chain[j..][..|chain[j..]| - 1] == init[j..];
    }
  }

  /** One more batch of the chain: its methods follow those already visited. */
  lemma FlattenStep(batches: Batches, chain: seq<BatchId>, mi: nat)
    requires ChainIn(batches, chain) && mi < |chain|
    ensures Flatten(batches, chain[..mi + 1]) == Flatten(batches, chain[..mi]) + batches[chain[mi]]
  {
    assert chain[..mi + 1][..mi] == chain[..mi];
  }

  /** The addresses of a chain are those of a prefix followed by those of the rest. */
  lemma {:induction false} RefsSplit(batches: Batches, chain: seq<BatchId>, j: nat)
    requires ChainIn(batches, chain) && j <= |chain|
    ensures Refs(batches, chain) == Refs(batches, chain[..j]) + Refs(batches, chain[j..])
    decreases |chain|
  {
    if j == |chain| {
      assert chain[..j] == chain && chain[j..] == [];
    } else {
      var init := chain[..|chain| - 1];
      RefsSplit(batches, init, j);
      assert init[..j] == chain[..j];
      assert chain[j..][..|chain[j..]| - 1] == init[j..];
    }
  }

  /** One more batch of the chain: its addresses follow those already visited. */
  lemma RefsStep(batches: Batches, chain: seq<BatchId>, mi: nat)
    requires ChainIn(batches, chain) && mi < |chain|
    ensures Refs(batches, chain[..mi + 1]) == Refs(batches, chain[..mi]) + BatchRefs(chain[mi], |batches[chain[mi]]|)
  {
    assert chain[..mi + 1][..mi] == chain[..mi];
  }

  /** Index of the first method with the given uid. */
  function FirstMatch(ms: seq<Method>, uid: nat): (r: Option<nat>)
    ensures r.Some? ==> r.value < |ms| && ms[r.value].sel.uid == uid
    ensures r.Some? ==> forall j :: 0 <= j < r.value ==> ms[j].sel.uid != uid
    ensures r.None? ==> forall j :: 0 <= j < |ms| ==> ms[j].sel.uid != uid
  {
    if ms == [] then None
    else if ms[0].sel.uid == uid then Some(0)
    else match FirstMatch(ms[1..], uid)
      case None => None
      case Some(i) => Some(i + 1)
  }

  /** Address of the first method of the chain with the given uid. */
  function FirstRef(batches: Batches, chain: seq<BatchId>, uid: nat): (r: Option<MethodRef>)
    requires ChainIn(batches, chain)
    ensures r.Some? ==> ValidRef(batches, r.value) && r.value.batch in chain && At(batches, r.value).sel.uid == uid
    ensures r.None? <==> forall m :: m in Flatten(batches, chain) ==> m.sel.uid != uid
    ensures r.Some? ==> (FirstMatch(Flatten(batches, chain), uid).Some? &&
                         At(batches, r.value) == Flatten(batches, chain)[FirstMatch(Flatten(batches, chain), uid).value])
  {
    RefsAgree(batches, chain);
    match FirstMatch(Flatten(batches, chain), uid)
    case None => None
    case Some(k) =>
      RefsMembership(batches, chain, Refs(batches, chain)[k]);
      Some(Refs(batches, chain)[k])
  }

  /** A position holding the uid with no earlier one is the first match. */
  lemma {:induction false} FirstMatchIs(ms: seq<Method>, uid: nat, k: nat)
    requires k < |ms| && ms[k].sel.uid == uid && forall j :: 0 <= j < k ==> ms[j].sel.uid != uid
    ensures FirstMatch(ms, uid) == Some(k)
  {
  }

  /** The first match in two runs, one after the other: in the first run if there is one, else in the second, shifted. */
  lemma {:induction false} FirstMatchAppend(a: seq<Method>, b: seq<Method>, uid: nat)
    ensures FirstMatch(a + b, uid) ==
              if FirstMatch(a, uid).Some? then FirstMatch(a, uid)
              else if FirstMatch(b, uid).Some? then Some(|a| + FirstMatch(b, uid).value)
              else None
  {
    if FirstMatch(a, uid).Some? {
      FirstMatchIs(a + b, uid, FirstMatch(a, uid).value);
    } else if FirstMatch(b, uid).Some? {
      var k := FirstMatch(b, uid).value;
      forall j | 0 <= j < |a| + k
        ensures (a + b)[j].sel.uid != uid
      {
        if j >= |a| {
          assert (a + b)[j] == b[j - |a|];
        }
      }
      FirstMatchIs(a + b, uid, |a| + k);
    }
  }

  /** The batch at position mi of a chain holds the first match at slot i when no earlier batch holds the uid. */
  lemma FirstRefHit(batches: Batches, chain: seq<BatchId>, uid: nat, mi: nat, i: nat)
    requires ChainIn(batches, chain) && mi < |chain| && i < |batches[chain[mi]]|
    requires FirstMatch(Flatten(batches, chain[..mi]), uid).None?
    requires batches[chain[mi]][i].sel.uid == uid
    requires forall j :: 0 <= j < i ==> batches[chain[mi]][j].sel.uid != uid
    ensures FirstRef(batches, chain, uid) == Some(MethodRef(chain[mi], i))
  {
    var b := chain[mi];
    var pre := Flatten(batches, chain[..mi]);
    var tail := Flatten(batches, chain[mi + 1..]);
    FlattenSplit(batches, chain, mi + 1);
    FlattenStep(batches, chain, mi);
    RefsSplit(batches, chain, mi + 1);
    RefsStep(batches, chain, mi);
    RefsAgree(batches, chain[..mi]);
    FirstMatchIs(batches[b], uid, i);
    FirstMatchAppend(pre, batches[b], uid);
    FirstMatchAppend(pre + batches[b], tail, uid);
    var refs := Refs(batches, chain[..mi]) + BatchRefs(b, |batches[b]|);
    assert refs[|pre| + i] == MethodRef(b, i);
    assert Refs(batches, chain)[|pre| + i] == refs[|pre| + i];
  }

  /**
    * The two nested loops with which class_replaceMethod, object_isMethodFromClass
    * and objc_get_type_encoding look for a uid down one chain: the address of the
    * first method that carries it.
    */
  method ScanChain(batches: Batches, chain: seq<BatchId>, uid: nat) returns (r: Option<MethodRef>)
    requires ChainIn(batches, chain)
    ensures r == FirstRef(batches, chain, uid)
  {
    var mi := 0;
    while mi < |chain|
      invariant mi <= |chain|
      invariant FirstMatch(Flatten(batches, chain[..mi]), uid).None?
    {
      var ms := batches[chain[mi]];
      var i := 0;
      while i < |ms|
        invariant i <= |ms|
        invariant forall j :: 0 <= j < i ==> ms[j].sel.uid != uid
      {
        if ms[i].sel.uid == uid {
          FirstRefHit(batches, chain, uid, mi, i);
          return Some(MethodRef(chain[mi], i));
        }
        i := i + 1;
      }
      FlattenStep(batches, chain, mi);
      FirstMatchAppend(Flatten(batches, chain[..mi]), ms, uid);
      mi := mi + 1;
    }
    assert chain[..mi] == chain;
    return None;
  }

  /** The implementations call_method invokes: every method with the uid, in chain order. */
  function MatchingImps(ms: seq<Method>, uid: nat): (imps: seq<Imp>)
    ensures |imps| <= |ms|
  {
    if ms == [] then []
    else
      var rest := MatchingImps(ms[..|ms| - 1], uid);
      var last := ms[|ms| - 1];
      if last.sel.uid == uid then rest + [last.imp] else rest
  }

  /** Nothing is called exactly when no method carries the uid. */
  lemma {:induction false} MatchingNone(ms: seq<Method>, uid: nat)
    ensures MatchingImps(ms, uid) == [] <==> forall j :: 0 <= j < |ms| ==> ms[j].sel.uid != uid
  {
    if ms != [] {
      MatchingNone(ms[..|ms| - 1], uid);
      assert forall j :: 0 <= j < |ms| - 1 ==> ms[..|ms| - 1][j] == ms[j];
    }
  }

  // ---------------------------------------------------------------------
  // Dispatch-table overlay: objc_sparsearray_set, one method after another

  /** Set each method's dispatch key to its imp, in order. */
  function Overlay(t: Table, ms: seq<Method>): Table {
    if ms == [] then t
    else
      var last := ms[|ms| - 1];
      Overlay(t, ms[..|ms| - 1])[DtKey(last.sel.uid) := last.imp]
  }

  /** Index of the last method whose dispatch key is k. */
  function LastWithKey(ms: seq<Method>, k: nat): (r: Option<nat>)
    ensures r.Some? ==> r.value < |ms| && DtKey(ms[r.value].sel.uid) == k
    ensures r.Some? ==> forall j :: r.value < j < |ms| ==> DtKey(ms[j].sel.uid) != k
    ensures r.None? ==> forall j :: 0 <= j < |ms| ==> DtKey(ms[j].sel.uid) != k
  {
    if ms == [] then None
    else if DtKey(ms[|ms| - 1].sel.uid) == k then Some(|ms| - 1)
    else
      var r := LastWithKey(ms[..|ms| - 1], k);
      assert forall j :: 0 <= j < |ms| - 1 ==> ms[..|ms| - 1][j] == ms[j];
      r
  }

  /** Later writes win: an overlaid key holds the imp of the last method with that key; others keep the base entry. */
  lemma {:induction false} OverlayLookup(t: Table, ms: seq<Method>, k: nat)
    ensures LastWithKey(ms, k).Some? ==>
              k in Overlay(t, ms) && Overlay(t, ms)[k] == ms[LastWithKey(ms, k).value].imp
    ensures LastWithKey(ms, k).None? ==>
              (k in Overlay(t, ms) <==> k in t) && (k in t ==> Overlay(t, ms)[k] == t[k])
  {
    if ms != [] {
      var pre := ms[..|ms| - 1];
      OverlayLookup(t, pre, k);
      if DtKey(ms[|ms| - 1].sel.uid) != k {
        assert LastWithKey(ms, k) == LastWithKey(pre, k);
        if LastWithKey(pre, k).Some? {
          assert pre[LastWithKey(pre, k).value] == ms[LastWithKey(pre, k).value];
        }
      }
    }
  }

  /** Overlaying two runs of methods is overlaying their concatenation. */
  lemma {:induction false} OverlayAppend(t: Table, a: seq<Method>, b: seq<Method>)
    ensures Overlay(Overlay(t, a), b) == Overlay(t, a + b)
    decreases |b|
  {
    if b != [] {
      var pre := b[..|b| - 1];
      OverlayAppend(t, a, pre);
      assert (a + b)[..|a + b| - 1] == a + pre;
      assert (a + b)[|a + b| - 1] == b[|b| - 1];
    } else {
      assert a + b == a;
    }
  }

  /** The overlay's keys are the base keys plus the keys of the methods. */
  lemma {:induction false} OverlayKeys(t: Table, ms: seq<Method>)
    ensures Overlay(t, ms).Keys == t.Keys + set m | m in ms :: DtKey(m.sel.uid)
  {
    if ms != [] {
      var pre := ms[..|ms| - 1];
      OverlayKeys(t, pre);
      assert ms == pre + [ms[|ms| - 1]];
    }
  }

  // ---------------------------------------------------------------------
  // method_exchangeImplementations

  /** Swap the imps at two method addresses; selectors and every other slot stay. */
  function Exchange(batches: Batches, m1: MethodRef, m2: MethodRef): (r: Batches)
    requires ValidRef(batches, m1) && ValidRef(batches, m2)
    ensures r.Keys == batches.Keys
    ensures ValidRef(r, m1) && ValidRef(r, m2)
    ensures At(r, m1).imp == At(batches, m2).imp && At(r, m2).imp == At(batches, m1).imp
    ensures At(r, m1).sel == At(batches, m1).sel && At(r, m2).sel == At(batches, m2).sel
    ensures forall b :: b in batches ==> |r[b]| == |batches[b]|
    ensures forall m :: ValidRef(batches, m) && m != m1 && m != m2 ==> At(r, m) == At(batches, m)
  {
    var imp1 := At(batches, m1).imp;
    var imp2 := At(batches, m2).imp;
    var b1 := batches[m1.batch := batches[m1.batch][m1.index := At(batches, m1).(imp := imp2)]];
    b1[m2.batch := b1[m2.batch][m2.index := At(b1, m2).(imp := imp1)]]
  }

  /** Exchanging twice restores the batches. */
  lemma ExchangeInvolution(batches: Batches, m1: MethodRef, m2: MethodRef)
    requires ValidRef(batches, m1) && ValidRef(batches, m2)
    ensures Exchange(Exchange(batches, m1, m2), m1, m2) == batches
  {
    var r := Exchange(Exchange(batches, m1, m2), m1, m2);
    forall b | b in batches
      ensures r[b] == batches[b]
    {
      assert |r[b]| == |batches[b]|;
      forall i | 0 <= i < |r[b]|
        ensures r[b][i] == batches[b][i]
      {
        var m := MethodRef(b, i);
        assert At(r, m) == At(batches, m);
      }
    }
  }

  /** Writing one imp leaves the chain's order and every other slot alone. */
  function SetImp(batches: Batches, m: MethodRef, imp: Imp): (r: Batches)
    requires ValidRef(batches, m)
    ensures r.Keys == batches.Keys && ValidRef(r, m)
    ensures At(r, m) == At(batches, m).(imp := imp)
    ensures forall b :: b in batches ==> |r[b]| == |batches[b]|
    ensures forall x :: ValidRef(batches, x) && x != m ==> At(r, x) == At(batches, x)
  {
    batches[m.batch := batches[m.batch][m.index := At(batches, m).(imp := imp)]]
  }

  // ---------------------------------------------------------------------
  // The loops of class_copyMethodList and of the dispatch-table overlay

  /** class_copyMethodList over one chain: count the methods, then collect their addresses. */
  method CopyMethodList(batches: Batches, chain: seq<BatchId>) returns (ret: seq<MethodRef>, outCount: nat)
    requires ChainIn(batches, chain)
    ensures ret == Refs(batches, chain)
    ensures outCount == |ret| == SumCounts(batches, chain)
  {
    var max := 0;
    var mi := 0;
    while mi < |chain|
      invariant mi <= |chain|
      invariant max == SumCounts(batches, chain[..mi])
    {
      assert chain[..mi + 1][..mi] == chain[..mi];
      max := max + |batches[chain[mi]]|;
      mi := mi + 1;
    }
    assert chain[..mi] == chain;
    RefsAgree(batches, chain);
    ret := [];
    var count := 0;
    mi := 0;
    while mi < |chain|
      invariant mi <= |chain|
      invariant ret == Refs(batches, chain[..mi]) && count == |ret|
      invariant count == SumCounts(batches, chain[..mi])
    {
      assert chain[..mi + 1][..mi] == chain[..mi];
      RefsAgree(batches, chain[..mi + 1]);
      RefsAgree(batches, chain[..mi]);
      SumCountsPrefix(batches, chain, mi + 1);
      ret, count := CopyBatch(chain[mi], |batches[chain[mi]]|, ret, count, max);
      mi := mi + 1;
    }
    assert chain[..mi] == chain;
    outCount := count;
  }

  /** The inner loop of class_copyMethodList: append the addresses of the n slots of batch b while fewer than max are written. */
  method CopyBatch(b: BatchId, n: nat, ret0: seq<MethodRef>, count0: nat, max: nat) returns (ret: seq<MethodRef>, count: nat)
    requires count0 == |ret0| && count0 + n <= max
    ensures ret == ret0 + BatchRefs(b, n) && count == |ret|
  {
    ret, count := ret0, count0;
    var i := 0;
    while i < n
      invariant i <= n
      invariant ret == ret0 + BatchRefs(b, i) && count == |ret| == count0 + i
    {
      if count < max {
        ret := ret + [MethodRef(b, i)];
        count := count + 1;
      }
      i := i + 1;
    }
  }

  /** A prefix of a chain holds no more methods than the chain. */
  lemma {:induction false} SumCountsPrefix(batches: Batches, chain: seq<BatchId>, j: nat)
    requires ChainIn(batches, chain) && j <= |chain|
    ensures SumCounts(batches, chain[..j]) <= SumCounts(batches, chain)
    decreases |chain| - j
  {
    if j < |chain| {
      SumCountsPrefix(batches, chain, j + 1);
      assert chain[..j + 1][..j] == chain[..j];
    } else {
      assert chain[..j] == chain;
    }
  }

  /** The overlay loop over a chain (objc_sparsearray_set per method). */
  method ApplyChain(table: Table, batches: Batches, chain: seq<BatchId>) returns (t: Table)
    requires ChainIn(batches, chain)
    ensures t == Overlay(table, Flatten(batches, chain))
  {
    t := table;
    var mi := 0;
    while mi < |chain|
      invariant mi <= |chain|
      invariant t == Overlay(table, Flatten(batches, chain[..mi]))
    {
      var ms := batches[chain[mi]];
      var i := 0;
      assert chain[..mi + 1][..mi] == chain[..mi];
      assert ms[..0] == [];
      assert Flatten(batches, chain[..mi]) + ms[..0] == Flatten(batches, chain[..mi]);
      while i < |ms|
        invariant i <= |ms|
        invariant t == Overlay(table, Flatten(batches, chain[..mi]) + ms[..i])
      {
        ghost var pre := Flatten(batches, chain[..mi]);
        assert (pre + ms[..i + 1])[..|pre| + i] == pre + ms[..i];
        assert (pre + ms[..i + 1])[|pre| + i] == ms[i];
        t := t[DtKey(ms[i].sel.uid) := ms[i].imp];
        i := i + 1;
      }
      assert ms[..i] == ms;
      mi := mi + 1;
    }
    assert chain[..mi] == chain;
  }
}
