/** The builtin slot table: the fixed arena offsets reserved for well-known
    intrinsics, and the well-known symbols used as property keys.

    The numeric offsets, the two `into()` conversions of a slot name into an
    object index and into a function index, and `get_constructor_index` are
    defined in `heap_constants.rs`, which is not part of this model. They are
    therefore carried as a `SlotLayout` value rather than fixed numbers: every
    statement of the model holds for any layout that satisfies `Valid()`.
 */
module HeapConstants {
  import opened Types

  /** The slot names the realm bootstrap refers to. */
  datatype BuiltinObjectIndexes =
    | ArrayConstructorIndex | ArrayPrototypeIndex
    | ArrayBufferConstructorIndex | ArrayBufferPrototypeIndex
    | BigintConstructorIndex | BigintPrototypeIndex
    | BooleanConstructorIndex | BooleanPrototypeIndex
    | ErrorConstructorIndex | ErrorPrototypeIndex
    | FunctionConstructorIndex | FunctionPrototypeIndex
    | MathObjectIndex
    | NumberConstructorIndex | NumberPrototypeIndex
    | ObjectConstructorIndex | ObjectPrototypeIndex
    | ReflectObjectIndex
    | StringConstructorIndex | StringPrototypeIndex
    | SymbolConstructorIndex | SymbolPrototypeIndex

  /** The well-known symbols used as property keys by the bootstrap. */
  datatype WellKnownSymbolIndexes = HasInstance

  /** The compile-time addressing convention of the builtin slot table.
      - `objectIndex`: a slot name converted into an object-arena index;
      - `functionIndex`: a slot name converted into a function-arena index;
      - `constructorIndex`: `get_constructor_index`, the function-arena slot
        paired with a constructor's object-arena slot. */
  datatype SlotLayout = SlotLayout(
    objectIndex: BuiltinObjectIndexes -> ObjectIndex,
    functionIndex: BuiltinObjectIndexes -> FunctionIndex,
    constructorIndex: BuiltinObjectIndexes -> FunctionIndex)
  {
    /** Each slot name has its own object offset, and each its own paired function slot. */
    ghost predicate Valid() {
      (forall a, b :: objectIndex(a) == objectIndex(b) ==> a == b) &&
      (forall a, b :: constructorIndex(a) == constructorIndex(b) ==> a == b)
    }
  }
}
