/** The heap arena as the function bootstrap sees it: a table of optional
    object records and a table of optional function records, the property
    entries installed into objects, and `insert_builtin_object`.

    The entry builders (`ObjectEntry::new_*`, `PropertyDescriptor::rwx`,
    `PropertyKey::from_str`) and the body of `insert_builtin_object` are not
    part of this model; the builders are kept as the terms that name them, and
    `insert_builtin_object` is given the contract its callers rely on.
 */
module HeapArena {
  import opened Types
  import opened HeapConstants

  /** A property key: a string, or a well-known symbol. */
  datatype PropertyKey = StringKey(name: string) | SymbolKey(symbol: WellKnownSymbolIndexes)

  /** `PropertyDescriptor::rwx`: a data property holding `value`. */
  datatype PropertyDescriptor = Rwx(value: Value)

  /** A property to install, as produced by one of the entry builders. */
  datatype ObjectEntry =
      /** `new_constructor_prototype_entry`: the constructor's `prototype` property. */
    | ConstructorPrototypeEntry(prototype: ObjectIndex)
      /** `new_prototype_function_entry`: a builtin method keyed by its name. */
    | PrototypeFunctionEntry(name: string, length: nat, isConstructor: bool)
      /** `new_prototype_symbol_function_entry`: a builtin method keyed by a well-known symbol. */
    | PrototypeSymbolFunctionEntry(name: string, symbol: WellKnownSymbolIndexes, length: nat, isConstructor: bool)
      /** `ObjectEntry::new`: an explicit key and descriptor. */
    | Entry(key: PropertyKey, descriptor: PropertyDescriptor)
  {
    /** The key under which the entry is installed. */
    function Key(): PropertyKey {
      match this
      case ConstructorPrototypeEntry(_) => StringKey("prototype")
      case PrototypeFunctionEntry(name, _, _) => StringKey(name)
      case PrototypeSymbolFunctionEntry(_, symbol, _, _) => SymbolKey(symbol)
      case Entry(key, _) => key
    }

    /** The arity of a builtin method entry; `None` for the other entries. */
    function Arity(): Option<nat> {
      match this
      case PrototypeFunctionEntry(_, length, _) => Some(length)
      case PrototypeSymbolFunctionEntry(_, _, length, _) => Some(length)
      case _ => None
    }
  }

  /** The keys of a list of entries, in order. */
  function Keys(entries: seq<ObjectEntry>): seq<PropertyKey> {
    seq(|entries|, i requires 0 <= i < |entries| => entries[i].Key())
  }

  /** No key occurs twice. */
  predicate KeysDistinct(entries: seq<ObjectEntry>) {
    forall i, j :: 0 <= i < j < |entries| ==> entries[i].Key() != entries[j].Key()
  }

  /** The own property of an object with the given key: the first entry that has it. */
  function Lookup(entries: seq<ObjectEntry>, key: PropertyKey): (r: Option<ObjectEntry>)
    ensures r.Some? ==> r.value in entries && r.value.Key() == key
    ensures r.None? <==> forall i :: 0 <= i < |entries| ==> entries[i].Key() != key
    ensures r.Some? ==>
      exists i :: 0 <= i < |entries| && entries[i] == r.value && (forall j :: 0 <= j < i ==> entries[j].Key() != key)
  {
    if entries == [] then None
    else if entries[0].Key() == key then Some(entries[0])
    else Lookup(entries[1..], key)
  }

  /** When keys are distinct, looking up an entry's key finds that very entry:
      a corollary of `Lookup`'s contract, since only one entry has that key. */
  lemma LookupFindsEach(entries: seq<ObjectEntry>, i: nat)
    requires KeysDistinct(entries) && i < |entries|
    ensures Lookup(entries, entries[i].Key()) == Some(entries[i])
  {
  }

  /** A key that no entry carries is not found. */
  lemma LookupMissing(entries: seq<ObjectEntry>, key: PropertyKey)
    requires key !in Keys(entries)
    ensures Lookup(entries, key) == None
  {
    assert forall i :: 0 <= i < |entries| ==> entries[i].Key() == Keys(entries)[i];
  }

  /** An ordinary object: its [[Prototype]] and its own properties. */
  datatype ObjectHeapData = ObjectHeapData(prototype: Option<Types.Object>, entries: seq<ObjectEntry>)

  /** A function object: the object holding its extra properties, its arity and its name. */
  datatype FunctionHeapData = FunctionHeapData(objectIndex: Option<ObjectIndex>, length: nat, initialName: Value)

  /** The object and function arenas; a slot is empty (`None`) or holds a record. */
  class Heap {
    var objects: array<Option<ObjectHeapData>>
    var functions: array<Option<FunctionHeapData>>

    /** `insert_builtin_object`: the object slot of `slot` now holds an ordinary
        object with the given [[Prototype]] and exactly the given entries; a
        constructor also has its paired function slot populated. Nothing else
        changes. The contents of that function record are not part of this
        model: the record written below is a stand-in that the contract does
        not promise. */
    method InsertBuiltinObject(L: SlotLayout, slot: BuiltinObjectIndexes, isConstructor: bool,
                               prototype: Option<Types.Object>, entries: seq<ObjectEntry>)
      requires L.objectIndex(slot).index < objects.Length
      requires isConstructor ==> L.constructorIndex(slot).index < functions.Length
      modifies objects, functions
      ensures objects[L.objectIndex(slot).index] == Some(ObjectHeapData(prototype, entries))
      ensures forall i :: 0 <= i < objects.Length && i != L.objectIndex(slot).index ==>
        objects[i] == old(objects[i])
      ensures isConstructor ==> functions[L.constructorIndex(slot).index].Some?
      ensures forall i :: 0 <= i < functions.Length && !(isConstructor && i == L.constructorIndex(slot).index) ==>
        functions[i] == old(functions[i])
    {
      objects[L.objectIndex(slot).index] := Some(ObjectHeapData(prototype, entries));
      if isConstructor {
        functions[L.constructorIndex(slot).index] := Some(FunctionHeapData(Some(L.objectIndex(slot)), 0, Value.Null));
      }
    }
  }
}
