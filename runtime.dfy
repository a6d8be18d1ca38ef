/**
  * The global state of class.c: the class table `classes`, the load queue
  * and the shared `empty_dtable`, together with the arenas the class
  * records, method batches and dispatch tables live in, and the class-table
  * operations register_class, class_registerAlias_np and
  * objc_classname_to_class.
  */
module ObjcRuntime {
  import opened RuntimeTypes
  import opened MethodLists
  import opened Hierarchy

  /** The address of the shared empty dispatch table `empty_dtable`. */
  const EmptyDt: DtId := 0

  /** Binding name n to class c keeps every unlinked class whose superclass name is n ranked above c. */
  ghost predicate RankedBinding(recs: Records, rank: ClassId -> nat, n: string, c: ClassId)
    requires c in recs
  {
    forall x {:trigger recs[x].superName} ::
      (IsClass(recs, x) && !Has(recs[x].info, SETUP) && recs[x].superName == Some(n)) ==> NameEdgeOk(recs, rank, x, c)
  }

  /** Every method chain a record or a category names is made of existing batches. */
  ghost predicate ChainsOk(recs: Records, batches: Batches, cats: map<string, seq<Category>>) {
    && (forall c {:trigger recs[c]} :: c in recs ==> ChainIn(batches, recs[c].methodlist))
    && (forall n, i {:trigger cats[n][i]} :: n in cats && 0 <= i < |cats[n]| ==>
          ChainIn(batches, cats[n][i].instanceMethods) && ChainIn(batches, cats[n][i].classMethods))
  }

  /**
    * Dispatch tables: every registered record points at an existing table,
    * the shared empty table stays empty, fresh addresses lie above every
    * table, and no two records share a table other than the empty one.
    */
  ghost predicate DtablesOk(recs: Records, dtableOf: map<ClassId, DtId>, dtables: map<DtId, Table>, nextDt: DtId) {
    && (forall c {:trigger c in dtableOf} :: c in dtableOf ==> c in recs && dtableOf[c] in dtables)
    && EmptyDt in dtables && dtables[EmptyDt] == map[]
    && (forall k {:trigger k in dtables} :: k in dtables ==> k < nextDt)
    && (forall c1, c2 {:trigger dtableOf[c1], dtableOf[c2]} ::
          c1 in dtableOf && c2 in dtableOf && dtableOf[c1] == dtableOf[c2] && dtableOf[c1] != EmptyDt ==> c1 == c2)
  }

  /** Every record's rank lies below bound. */
  ghost predicate RanksBelow(recs: Records, rank: ClassId -> nat, bound: nat) {
    forall c {:trigger c in recs} :: c in recs ==> rank(c) < bound
  }

  /** Fresh batch addresses lie above every batch. */
  ghost predicate BatchesBelow(batches: Batches, nextBatch: BatchId) {
    forall b {:trigger b in batches} :: b in batches ==> b < nextBatch
  }

  /** Pointing records at the shared empty table keeps the dispatch tables private. */
  lemma PointAtEmptyKeepsDtablesOk(recs: Records, dtableOf: map<ClassId, DtId>, dtables: map<DtId, Table>, nextDt: DtId, c: ClassId, m: ClassId)
    requires DtablesOk(recs, dtableOf, dtables, nextDt) && c in recs && m in recs
    ensures DtablesOk(recs, dtableOf[c := EmptyDt][m := EmptyDt], dtables, nextDt)
  {
    var d := dtableOf[c := EmptyDt][m := EmptyDt];
    forall c1, c2 | c1 in d && c2 in d && d[c1] == d[c2] && d[c1] != EmptyDt
      ensures c1 == c2
    {
      assert c1 in dtableOf && c2 in dtableOf;
    }
  }

  class Runtime {
    /** `classes`: None until the first registration creates the hashtable. */
    var table: Option<Names>
    /** Every class and metaclass record, by address. */
    var recs: Records
    /** The `dtable` pointer of each registered record; a record without an entry has a NULL dtable. */
    var dtableOf: map<ClassId, DtId>
    /** The sparse arrays, by address; EmptyDt is `empty_dtable`. */
    var dtables: map<DtId, Table>
    /** The next fresh sparse-array address. */
    var nextDt: DtId
    /** The method batches, by address. */
    var batches: Batches
    /** The next fresh batch address. */
    var nextBatch: BatchId
    /** What objc_categories_for_class answers, by class name. */
    var cats: map<string, seq<Category>>
    /** `load_queue[0 .. load_queue_cnt]`. */
    var loadQueue: seq<ClassId>
    /** The load and initialize hooks called so far, in order. */
    ghost var trace: seq<Event>
    /** The uids the selector registry gives "load" and "initialize". */
    const loadUid: nat
    const initializeUid: nat
    /** A measure that decreases along superclass links and bound superclass names: the hierarchy is acyclic. */
    ghost const rank: ClassId -> nat
    /** Every record ranks below bound: walks down subclass lists end. */
    ghost const bound: nat

    /** The class table as a map; an absent table binds nothing. */
    function Names(): Names
      reads this`table
    {
      if table.Some? then table.value else map[]
    }

    /** The registered records: those whose dtable is not NULL. */
    function Registered(): set<ClassId>
      reads this`dtableOf
    {
      dtableOf.Keys
    }

    ghost predicate Valid()
      reads this`table, this`recs, this`dtableOf, this`dtables, this`nextDt, this`batches, this`nextBatch, this`cats
    {
      && Ok(Names(), recs, Registered(), rank)
      && DtablesOk(recs, dtableOf, dtables, nextDt)
      && ChainsOk(recs, batches, cats)
      && BatchesBelow(batches, nextBatch)
      && RanksBelow(recs, rank, bound)
    }

    /** The state before any class is registered: the records and batches the compiler emitted. */
    constructor (recs0: Records, batches0: Batches, cats0: map<string, seq<Category>>,
                 loadUid0: nat, initializeUid0: nat, nextBatch0: BatchId,
                 ghost rank0: ClassId -> nat, ghost bound0: nat)
      requires Ok(map[], recs0, {}, rank0)
      requires ChainsOk(recs0, batches0, cats0)
      requires BatchesBelow(batches0, nextBatch0)
      requires RanksBelow(recs0, rank0, bound0)
      ensures Valid()
      ensures table.None? && recs == recs0 && dtableOf == map[] && dtables == map[EmptyDt := map[]]
      ensures batches == batches0 && cats == cats0 && loadQueue == [] && trace == []
      ensures loadUid == loadUid0 && initializeUid == initializeUid0 && rank == rank0 && bound == bound0
    {
      table := None;
      recs := recs0;
      dtableOf := map[];
      dtables := map[EmptyDt := map[]];
      nextDt := EmptyDt + 1;
      batches := batches0;
      nextBatch := nextBatch0;
      cats := cats0;
      loadQueue := [];
      trace := [];
      loadUid := loadUid0;
      initializeUid := initializeUid0;
      rank := rank0;
      bound := bound0;
      new;
      assert Names() == map[] && Registered() == {};
    }

    /** objc_classname_to_class: the class bound to name, None (Nil) when unbound or when there is no table yet. */
    function ClassNameToClass(name: string): (r: Option<ClassId>)
      reads this
      requires Valid()
      ensures r.Some? <==> table.Some? && name in table.value
      ensures r.Some? ==> r.value == table.value[name] && IsClass(recs, r.value) && r.value in Registered()
    {
      if table.None? || name !in table.value then None else Some(table.value[name])
    }

    /**
      * register_class: bind the class's name to it (a later registration
      * under the same name wins), and point the dtables of the class and
      * of its metaclass at the shared empty table.
      */
    method RegisterClass(c: ClassId)
      requires Valid() && IsClass(recs, c)
      requires RankedBinding(recs, rank, recs[c].name, c)
      modifies this`table, this`dtableOf
      ensures Valid()
      ensures table == Some(old(Names())[recs[c].name := c])
      ensures dtableOf == old(dtableOf)[c := EmptyDt][recs[c].meta := EmptyDt]
      ensures ClassNameToClass(recs[c].name) == Some(c)
      ensures forall n :: n != recs[c].name ==> ClassNameToClass(n) == old(ClassNameToClass(n))
    {
      var m := recs[c].meta;
      RegisterKeepsOk(Names(), recs, Registered(), rank, c);
      PointAtEmptyKeepsDtablesOk(recs, dtableOf, dtables, nextDt, c, m);
      table := Some(Names()[recs[c].name := c]);
      dtableOf := dtableOf[c := EmptyDt][m := EmptyDt];
      assert Registered() == old(Registered()) + {c, m};
    }

    /** class_registerAlias_np: bind one more name to a registered class; fails (NO) when there is no class table yet. */
    method RegisterAlias(c: ClassId, name: string) returns (ok: bool)
      requires Valid() && IsClass(recs, c) && c in Registered()
      requires RankedBinding(recs, rank, name, c)
      modifies this`table
      ensures Valid()
      ensures ok <==> old(table).Some?
      ensures table == if ok then Some(old(Names())[name := c]) else old(table)
      ensures ok ==> ClassNameToClass(name) == Some(c)
      ensures forall n :: n != name ==> ClassNameToClass(n) == old(ClassNameToClass(n))
    {
      if table.None? {
        return false;
      }
      table := Some(table.value[name := c]);
      BindKeepsNamesOk(old(Names()), recs, Registered(), rank, name, c);
      return true;
    }
  }

  /** Binding a name to a registered class that is ranked below its would-be subclasses keeps the table invariant. */
  lemma BindKeepsNamesOk(names: Names, recs: Records, reg: set<ClassId>, rank: ClassId -> nat, n: string, c: ClassId)
    requires Ok(names, recs, reg, rank) && IsClass(recs, c) && c in reg
    requires RankedBinding(recs, rank, n, c)
    ensures Ok(names[n := c], recs, reg, rank)
  {
    var names' := names[n := c];
    forall x | IsClass(recs, x) && !Has(recs[x].info, SETUP) && recs[x].superName.Some? && recs[x].superName.value in names'
      ensures NameEdgeOk(recs, rank, x, names'[recs[x].superName.value])
    {
      if recs[x].superName.value != n {
        assert NameEdgeOk(recs, rank, x, names[recs[x].superName.value]);
      }
    }
  }

  /** Registering a class keeps every invariant: the class and its metaclass join the registered records together. */
  lemma RegisterKeepsOk(names: Names, recs: Records, reg: set<ClassId>, rank: ClassId -> nat, c: ClassId)
    requires Ok(names, recs, reg, rank) && IsClass(recs, c)
    requires RankedBinding(recs, rank, recs[c].name, c)
    ensures recs[c].meta in recs
    ensures Ok(names[recs[c].name := c], recs, reg + {c, recs[c].meta}, rank)
  {
    var reg' := reg + {c, recs[c].meta};
    assert RecOk(recs, reg, rank, c) && ClassOk(recs, reg, rank, c);
    forall x | x in recs
      ensures RecOk(recs, reg', rank, x)
    {
      assert RecOk(recs, reg, rank, x);
      if Has(recs[x].info, CLASS) {
        assert ClassOk(recs, reg, rank, x);
        if recs[x].meta == recs[c].meta {
          assert MetaOf(recs, x) == MetaOf(recs, c);
        }
      }
    }
    assert Ok(names, recs, reg', rank);
    BindKeepsNamesOk(names, recs, reg', rank, recs[c].name, c);
  }
}
