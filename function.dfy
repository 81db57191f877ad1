/** The bootstrap of `%Function%` and `%Function.prototype%`
    (`initialize_function_heap`) and the placeholder binding of the Function
    constructor (`function_constructor_binding`).
 */
module FunctionHeap {
  import opened Types
  import opened HeapConstants
  import opened HeapArena
  import RealmIntrinsics

  /** The entries of `%Function.prototype%`, in installation order. Its
      `constructor` is the function slot paired with `%Function%`. */
  function FunctionPrototypeEntries(L: SlotLayout): seq<ObjectEntry> {
    [ PrototypeFunctionEntry("apply", 2, false),
      PrototypeFunctionEntry("bind", 1, true),
      PrototypeFunctionEntry("call", 1, true),
      Entry(StringKey("constructor"), Rwx(Value.Function(L.constructorIndex(FunctionConstructorIndex)))),
      PrototypeFunctionEntry("toString", 0, false),
      PrototypeSymbolFunctionEntry("hasInstance", HasInstance, 1, false) ]
  }

  /** The single entry of `%Function%`: its `prototype`, `%Function.prototype%`. */
  function FunctionConstructorEntries(L: SlotLayout): seq<ObjectEntry> {
    [ConstructorPrototypeEntry(L.objectIndex(FunctionPrototypeIndex))]
  }

  /** `%Function.prototype%` has six properties, keyed in this order by five
      names and the well-known symbol @@hasInstance, with these arities. */
  lemma FunctionPrototypeLayout(L: SlotLayout)
    ensures Keys(FunctionPrototypeEntries(L)) ==
      [StringKey("apply"), StringKey("bind"), StringKey("call"),
       StringKey("constructor"), StringKey("toString"), SymbolKey(HasInstance)]
    ensures KeysDistinct(FunctionPrototypeEntries(L))
    ensures var es := FunctionPrototypeEntries(L);
      seq(6, i requires 0 <= i < 6 => es[i].Arity()) == [Some(2), Some(1), Some(1), None, Some(0), Some(1)]
  {
  }

  /** The builtin methods of `%Function.prototype%`, each found under its key
      with its arity and constructible flag. */
  lemma FunctionPrototypeMethods(L: SlotLayout)
    ensures var es := FunctionPrototypeEntries(L);
      Lookup(es, StringKey("apply")) == Some(PrototypeFunctionEntry("apply", 2, false)) &&
      Lookup(es, StringKey("bind")) == Some(PrototypeFunctionEntry("bind", 1, true)) &&
      Lookup(es, StringKey("call")) == Some(PrototypeFunctionEntry("call", 1, true)) &&
      Lookup(es, StringKey("toString")) == Some(PrototypeFunctionEntry("toString", 0, false))
  {
    var es := FunctionPrototypeEntries(L);
    FunctionPrototypeLayout(L);
    LookupFindsEach(es, 0);
    LookupFindsEach(es, 1);
    LookupFindsEach(es, 2);
    LookupFindsEach(es, 4);
  }

  /** @@hasInstance is installed under the well-known symbol, not under the
      string "hasInstance". */
  lemma HasInstanceKeyedBySymbol(L: SlotLayout)
    ensures var es := FunctionPrototypeEntries(L);
      Lookup(es, SymbolKey(HasInstance)) == Some(PrototypeSymbolFunctionEntry("hasInstance", HasInstance, 1, false)) &&
      Lookup(es, StringKey("hasInstance")) == None
  {
    var es := FunctionPrototypeEntries(L);
    FunctionPrototypeLayout(L);
    LookupFindsEach(es, 5);
    LookupMissing(es, StringKey("hasInstance"));
  }

  /** `%Function.prototype%.constructor` is an rwx data property whose value is
      the function paired with `%Function%`. */
  lemma PrototypeConstructorIsFunction(L: SlotLayout)
    ensures Lookup(FunctionPrototypeEntries(L), StringKey("constructor")) ==
      Some(Entry(StringKey("constructor"), Rwx(Value.Function(L.constructorIndex(FunctionConstructorIndex)))))
  {
    FunctionPrototypeLayout(L);
    LookupFindsEach(FunctionPrototypeEntries(L), 3);
  }

  /** `%Function%.prototype.constructor` resolves, by identity, to `%Function%`:
      `%Function%`'s `prototype` names an object whose `constructor` is a
      function whose record points back at `%Function%`'s object slot. */
  ghost predicate ConstructorRoundTrip(heap: Heap, L: SlotLayout)
    reads heap, heap.objects, heap.functions
    requires L.objectIndex(FunctionConstructorIndex).index < heap.objects.Length
  {
    var ctor := L.objectIndex(FunctionConstructorIndex);
    heap.objects[ctor.index].Some? &&
    match Lookup(heap.objects[ctor.index].value.entries, StringKey("prototype"))
    case Some(ConstructorPrototypeEntry(proto)) =>
      proto.index < heap.objects.Length && heap.objects[proto.index].Some? &&
      (match Lookup(heap.objects[proto.index].value.entries, StringKey("constructor"))
       case Some(Entry(_, Rwx(Function(f)))) =>
         f.index < heap.functions.Length && heap.functions[f.index].Some? &&
         heap.functions[f.index].value.objectIndex == Some(ctor)
       case _ => false)
    case _ => false
  }

  /** `initialize_function_heap`: installs `%Function%` and
      `%Function.prototype%` at their builtin slots, overwrites `%Function%`'s
      paired function record, and leaves every other slot as it was. */
  method InitializeFunctionHeap(heap: Heap, L: SlotLayout)
    requires L.Valid()
    requires L.objectIndex(FunctionConstructorIndex).index < heap.objects.Length
    requires L.objectIndex(FunctionPrototypeIndex).index < heap.objects.Length
    requires L.constructorIndex(FunctionConstructorIndex).index < heap.functions.Length
    requires L.constructorIndex(FunctionPrototypeIndex).index < heap.functions.Length
    modifies heap.objects, heap.functions
    // %Function%: [[Prototype]] is %Function.prototype% seen as a function handle; one entry.
    ensures heap.objects[L.objectIndex(FunctionConstructorIndex).index] ==
      Some(ObjectHeapData(Some(Object.Function(L.functionIndex(FunctionPrototypeIndex))), FunctionConstructorEntries(L)))
    // %Function%'s function record: arity 1, name null, extra properties in its object slot.
    ensures heap.functions[L.constructorIndex(FunctionConstructorIndex).index] ==
      Some(FunctionHeapData(Some(L.objectIndex(FunctionConstructorIndex)), 1, Value.Null))
    // %Function.prototype%: [[Prototype]] is %Object.prototype%; the six entries.
    ensures heap.objects[L.objectIndex(FunctionPrototypeIndex).index] ==
      Some(ObjectHeapData(Some(Object.Object(L.objectIndex(ObjectPrototypeIndex))), FunctionPrototypeEntries(L)))
    // %Function.prototype% is inserted as a constructor, so its paired function slot is populated.
    ensures heap.functions[L.constructorIndex(FunctionPrototypeIndex).index].Some?
    ensures forall i :: (0 <= i < heap.objects.Length &&
                         i != L.objectIndex(FunctionConstructorIndex).index &&
                         i != L.objectIndex(FunctionPrototypeIndex).index) ==>
      heap.objects[i] == old(heap.objects[i])
    ensures forall i :: (0 <= i < heap.functions.Length &&
                         i != L.constructorIndex(FunctionConstructorIndex).index &&
                         i != L.constructorIndex(FunctionPrototypeIndex).index) ==>
      heap.functions[i] == old(heap.functions[i])
    ensures ConstructorRoundTrip(heap, L)
  {
    heap.InsertBuiltinObject(L, FunctionConstructorIndex, true,
      Some(Object.Function(L.functionIndex(FunctionPrototypeIndex))), FunctionConstructorEntries(L));
    heap.functions[L.constructorIndex(FunctionConstructorIndex).index] :=
      Some(FunctionHeapData(Some(L.objectIndex(FunctionConstructorIndex)), 1, Value.Null));
    heap.InsertBuiltinObject(L, FunctionPrototypeIndex, true,
      Some(Object.Object(L.objectIndex(ObjectPrototypeIndex))), FunctionPrototypeEntries(L));
    // The two slot names differ, so their object slots and paired function slots differ.
    assert L.constructorIndex(FunctionConstructorIndex) != L.constructorIndex(FunctionPrototypeIndex);
    assert L.objectIndex(FunctionConstructorIndex) != L.objectIndex(FunctionPrototypeIndex);
    PrototypeConstructorIsFunction(L);
    assert Lookup(FunctionConstructorEntries(L), StringKey("prototype")) ==
      Some(ConstructorPrototypeEntry(L.objectIndex(FunctionPrototypeIndex)));
  }

  /** Once `%Function.prototype%` is installed (as `InitializeFunctionHeap`
      ensures), the realm's default prototype for the Function kind names a
      populated object slot. */
  lemma FunctionProtoPopulatedAfterBootstrap(heap: Heap, L: SlotLayout)
    requires L.objectIndex(FunctionPrototypeIndex).index < heap.objects.Length
    requires heap.objects[L.objectIndex(FunctionPrototypeIndex).index].Some?
    ensures var p := RealmIntrinsics.Default(L).GetIntrinsicDefaultProto(RealmIntrinsics.ProtoIntrinsics.Function);
      p.Available? && p.value.Object? && p.value.objectIndex.index < heap.objects.Length &&
      heap.objects[p.value.objectIndex.index].Some?
  {
    RealmIntrinsics.DefaultFunctionProto(L);
  }

  /** `function_constructor_binding`: whatever the heap, `this` and arguments,
      it completes normally with the function handle of index 0, the same
      placeholder index the intrinsics table uses. It reads nothing (no `reads`
      clause) and so changes nothing. */
  function FunctionConstructorBinding(heap: Heap, thisValue: Value, args: seq<Value>): (r: JsResult<Value>)
    ensures r.Ok? && r.value == Value.Function(PlaceholderFunction)
  {
    Ok(Value.Function(FunctionIndex(0)))
  }

  /** The binding's result does not depend on any of its inputs. */
  lemma FunctionConstructorBindingIgnoresInputs(h1: Heap, t1: Value, a1: seq<Value>, h2: Heap, t2: Value, a2: seq<Value>)
    ensures FunctionConstructorBinding(h1, t1, a1) == FunctionConstructorBinding(h2, t2, a2)
  {
  }
}
