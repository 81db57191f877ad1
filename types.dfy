/** Handles and values shared by the realm's intrinsics table and the heap.

    A handle is a typed index into one arena of the heap. Two handles are equal
    exactly when they index the same slot of the same arena; the wrapper types
    (`Object`, `Function`, `OrdinaryObject`) only tag an index with the kind of
    entity it denotes and never change the index.
 */
module Types {

  datatype Option<+T> = None | Some(value: T)

  /** An index into the heap's object arena. */
  datatype ObjectIndex = ObjectIndex(index: nat)

  /** An index into the heap's function arena. */
  datatype FunctionIndex = FunctionIndex(index: nat)

  /** The index that stands for "not implemented yet": slot 0 of either arena. */
  const PlaceholderFunction := FunctionIndex(0)
  const PlaceholderObject := ObjectIndex(0)

  /** An object-valued handle: either an ordinary object or a function object. */
  datatype Object = Object(objectIndex: ObjectIndex) | Function(functionIndex: FunctionIndex)

  /** A handle known to denote a function (`Function::new`). */
  datatype Function = New(index: FunctionIndex)

  /** A handle known to denote an ordinary object (`OrdinaryObject::new`). */
  datatype OrdinaryObject = New(index: ObjectIndex) {
    /** The conversion into `Object`: the same index, tagged as an ordinary object. */
    function Into(): Object {
      Object.Object(index)
    }
  }

  /** ECMAScript values, restricted to the variants the bootstrap stores. */
  datatype Value = Null | Function(functionIndex: FunctionIndex) | Object(objectIndex: ObjectIndex)

  /** The fallible return convention of builtin bindings: a value, or a thrown value. */
  datatype JsResult<+T> = Ok(value: T) | Throw(thrown: Value)
}
