/**
  * The record types of the class runtime: class records, methods, method
  * batches, categories, instance variables and the `info` flag bits.
  * Pointers between records are indices into arenas kept by the runtime
  * (ClassId, BatchId, DtId); a `Method` pointer is a MethodRef.
  */
module RuntimeTypes {

  datatype Option<T> = None | Some(value: T)

  /** Identity of a class or metaclass record (its address). */
  type ClassId = nat
  /** Identity of one method batch (`struct objc_method_list`). */
  type BatchId = nat
  /** Identity of one dispatch table (`struct objc_sparsearray`). */
  type DtId = nat
  /** An implementation pointer; 0 is nil. */
  type Imp = nat

  const NilImp: Imp := 0

  // ---------------------------------------------------------------------
  // 32-bit unsigned arithmetic (`unsigned`, `unsigned long` on the target)

  const U32: nat := 0x1_0000_0000

  type U32Val = x: nat | x < U32

  /** The value of a 32-bit word read as a two's complement `int`. */
  function ToInt32(x: U32Val): (r: int)
    ensures -0x8000_0000 <= r < 0x8000_0000
    ensures (r - x) % U32 == 0
  {
    if x < 0x8000_0000 then x else x - U32
  }

  /** Storing an `int` into a 32-bit unsigned word. */
  function Wrap(x: int): (r: U32Val)
    ensures (r - x) % U32 == 0
  {
    x % U32
  }

  lemma ToInt32Wrap(x: int)
    requires -0x8000_0000 <= x < 0x8000_0000
    ensures ToInt32(Wrap(x)) == x
  {
  }

  // ---------------------------------------------------------------------
  // enum objc_abi_class_info

  type Info = bv32

  const CLASS: Info := 0x001
  const METACLASS: Info := 0x002
  const NEW_ABI: Info := 0x010
  const SETUP: Info := 0x100
  const LOADED: Info := 0x200
  const DTABLE: Info := 0x400
  const INITIALIZED: Info := 0x800

  const AllFlags: seq<Info> := [CLASS, METACLASS, NEW_ABI, SETUP, LOADED, DTABLE, INITIALIZED]

  predicate Has(info: Info, flag: Info) {
    info & flag != 0
  }

  predicate IsFlag(f: Info) {
    f == CLASS || f == METACLASS || f == NEW_ABI || f == SETUP || f == LOADED || f == DTABLE || f == INITIALIZED
  }

  /** `info |= f`: f is set afterwards and every other flag is as it was. */
  function SetFlag(info: Info, f: Info): (r: Info)
    requires IsFlag(f)
    ensures Has(r, f)
    ensures f != CLASS ==> Has(r, CLASS) == Has(info, CLASS)
    ensures f != METACLASS ==> Has(r, METACLASS) == Has(info, METACLASS)
    ensures f != NEW_ABI ==> Has(r, NEW_ABI) == Has(info, NEW_ABI)
    ensures f != SETUP ==> Has(r, SETUP) == Has(info, SETUP)
    ensures f != LOADED ==> Has(r, LOADED) == Has(info, LOADED)
    ensures f != DTABLE ==> Has(r, DTABLE) == Has(info, DTABLE)
    ensures f != INITIALIZED ==> Has(r, INITIALIZED) == Has(info, INITIALIZED)
  {
    info | f
  }

  /** Each flag is a single bit, and no two flags share a bit. */
  lemma FlagsDistinctBits()
    ensures forall i :: 0 <= i < |AllFlags| ==> AllFlags[i] != 0 && AllFlags[i] & (AllFlags[i] - 1) == 0
    ensures forall i, j :: 0 <= i < j < |AllFlags| ==> AllFlags[i] & AllFlags[j] == 0
  {
  }

  /** `info |= f` sets f and leaves every other flag as it was. */
  lemma SetFlagKeepsOthers(info: Info, f: Info, g: Info)
    requires f in AllFlags && g in AllFlags && f != g
    ensures Has(info | f, f)
    ensures Has(info | f, g) == Has(info, g)
  {
  }

  /** `info |= f` never clears a flag that was set. */
  lemma SetFlagMonotonic(info: Info, f: Info, g: Info)
    requires Has(info, g)
    ensures Has(info | f, g)
  {
  }

  // ---------------------------------------------------------------------
  // struct objc_selector, objc_method, objc_category, objc_ivar

  /** A selector: the numeric uid handed out by the selector registry and its type encoding. */
  datatype Selector = Selector(uid: nat, types: string)

  datatype Method = Method(sel: Selector, imp: Imp)

  /** The address of one method slot: batch and index within it. */
  datatype MethodRef = MethodRef(batch: BatchId, index: nat)

  /** A category: its target class name and two method chains. */
  datatype Category = Category(
    categoryName: string,
    className: string,
    instanceMethods: seq<BatchId>,
    classMethods: seq<BatchId>)

  datatype Ivar = Ivar(name: string, typ: string, offset: U32Val)

  /**
    * struct objc_class. `superName` is the ABI superclass name read before
    * linking; `superclass` the resolved back-reference (Nil = None).
    * `meta` is the metaclass (`object_getClass(cls)`); `instanceSize` is the
    * 32-bit word that holds the negated declared size until linking.
    * `subclassList` is the Nil-terminated array, None while it is NULL.
    * The `dtable` pointer is kept by the runtime beside the record (a map
    * from record to table), since rebuilding tables never touches the rest
    * of the record.
    */
  datatype ClassRec = ClassRec(
    name: string,
    superName: Option<string>,
    superclass: Option<ClassId>,
    meta: ClassId,
    info: Info,
    instanceSize: U32Val,
    ivars: Option<seq<Ivar>>,
    ivarOffsets: seq<U32Val>,
    methodlist: seq<BatchId>,
    subclassList: Option<seq<Option<ClassId>>>)

  /** The two one-time hooks the runtime calls by name. */
  datatype Hook = Load | Initialize

  /** One recorded hook invocation: which hook, on which class, through which imp, and the class's flags when it ran. */
  datatype Event = Event(hook: Hook, cls: ClassId, imp: Imp, info: Info)
}
