# Nova realm bootstrap: intrinsics directory and Function heap

This project models two parts of realm bootstrap in the Nova ECMAScript engine (`nova_vm`):

* **The intrinsics directory** (`Intrinsics`, `intrinsics.rs`). This is a copyable record holding 39 typed arena indexes, one for each well-known intrinsic.
  * `Default::default` fills the record from the builtin slot table. The 17 intrinsics that are not implemented yet get the placeholder index 0.
  * There is one accessor per intrinsic. Each accessor either wraps the stored index in a typed handle or is `todo!()`.
  * `get_intrinsic_default_proto` maps each of the 16 `ProtoIntrinsics` kinds to its default prototype. This is the default step of GetPrototypeFromConstructor (ECMAScript 2024, section 10.1.14).
* **The Function bootstrap** (`initialize_function_heap`, `function.rs`). This is an in-place update of the heap's object table and function table:
  * it installs `%Function%` and `%Function.prototype%` at their builtin slots;
  * it wires their prototypes;
  * it overwrites `%Function%`'s function record;
  * it gives `%Function.prototype%` six properties in a fixed order.
* **`function_constructor_binding`**, which always returns the function handle with index 0.

Modules, one per source unit:

* `Types` (`types.dfy`): typed indexes (`ObjectIndex`, `FunctionIndex`), the handle wrappers `Object`, `Function` and `OrdinaryObject`, `Value`, and `JsResult`.
* `HeapConstants` (`heap_constants.dfy`): the builtin slot names and the `SlotLayout`. The layout stands for the fixed offsets, for the two `into()` conversions and for `get_constructor_index`. `heap_constants.rs` is not part of this model, so every statement here holds for any layout.
  * `SlotLayout.Valid()` requires that no two slot names share an object offset.
  * It also requires that no two slot names share a paired function slot.
* `RealmIntrinsics` (`intrinsics.dfy`): `Intrinsics`, `ProtoIntrinsics`, the 39 accessors `GetX()` and `GetIntrinsicDefaultProto`.
  * An accessor whose body is `todo!()` returns `NotImplemented`. The model treats this as a partial function, not as a crash.
  * `Accessor(n)` brings all 39 accessors together under one name, so that one contract covers them.
  * `Default(L)` is `Default::default` for the slot layout `L`.
* `HeapArena` (`heap.dfy`): the `Heap` class. It holds an array of optional object records and an array of optional function records.
  * `ObjectEntry` has one constructor per entry builder.
  * `Lookup` finds an object's own property by key.
  * `InsertBuiltinObject` has an abstract contract.
* `FunctionHeap` (`function.dfy`): `InitializeFunctionHeap`, the entry lists it installs, and `FunctionConstructorBinding`.

`FunctionIndex::from_index(0)` (function.rs:73) and `FunctionIndex::from_u32_index(0)` (intrinsics.rs) are both read as index 0 (`PlaceholderFunction`).

## Model

| member | source | states |
|---|---|---|
| `RealmIntrinsics.Default` | nova_vm/src/ecmascript/execution/realm/intrinsics.rs:116-216 | Every field holds the index of its own builtin slot, converted to the field's arena kind. Every placeholder field holds index 0 of its arena. |
| `RealmIntrinsics.Intrinsics.Accessor` | nova_vm/src/ecmascript/execution/realm/intrinsics.rs:244-437 | An accessor succeeds exactly when its body is not `todo!()`. When it succeeds, it returns the stored index unchanged, in the arena of the field's type. |
| `RealmIntrinsics.Intrinsics.GetIntrinsicDefaultProto` | nova_vm/src/ecmascript/execution/realm/intrinsics.rs:220-242 | The lookup succeeds exactly for the 10 kinds that are not native errors. Its result is an ordinary-object handle holding the stored prototype index of that kind. For ArrayBuffer, the `OrdinaryObject` is converted to `Object` with the index unchanged. |
| `RealmIntrinsics.DefaultProtoFromSlotTable` | nova_vm/src/ecmascript/execution/realm/intrinsics.rs:220-242 | On the default table, the six native-error kinds give `NotImplemented`. Every other kind gives `Object::Object` of its prototype's builtin slot; for example, Array gives `ArrayPrototypeIndex`. |
| `RealmIntrinsics.DefaultFunctionProto` | nova_vm/src/ecmascript/execution/realm/intrinsics.rs:231 | On the default table, the Function kind gives `Object::Object(FunctionPrototypeIndex)`. |
| `RealmIntrinsics.ProtoAvailableIffSlotted` | nova_vm/src/ecmascript/execution/realm/intrinsics.rs:128-173 | The lookup fails for exactly the kinds whose prototype `Default::default` fills with a placeholder. |
| `RealmIntrinsics.DefaultFieldsFromSlots` | nova_vm/src/ecmascript/execution/realm/intrinsics.rs:118-159 | Each of these fields holds the index of its matching builtin slot: `object_prototype`, `function`, `function_prototype`, `array_prototype` and `reflect`. |
| `RealmIntrinsics.PlaceholdersAlias` | nova_vm/src/ecmascript/execution/realm/intrinsics.rs:128-173 | The 11 placeholder functions (`eval`, `eval_error`, `is_finite`, `is_nan`, `object_prototype_to_string`, `range_error`, `reference_error`, `syntax_error`, `throw_type_error`, `type_error`, `uri_error`) are all function index 0. The 6 placeholder prototypes (eval, range, reference, syntax, type and URI error) are all object index 0. Every intrinsic without a builtin slot holds index 0 of its own arena. |
| `RealmIntrinsics.UnreadableIntrinsics` | nova_vm/src/ecmascript/execution/realm/intrinsics.rs:294-382 | These accessors are not implemented, whatever the table holds: `reflect`, `eval`, `is_finite`, `is_nan` and `object_prototype_to_string`. `reflect` is not implemented even though `Default::default` sets its field from `ReflectObjectIndex`. |
| `RealmIntrinsics.DefaultDeterministic` | nova_vm/src/ecmascript/execution/realm/intrinsics.rs:116-216 | Two derivations from the same slot conversions are equal field for field. |
| `RealmIntrinsics.EvalErrorAccessorReturnsPlaceholder` | nova_vm/src/ecmascript/execution/realm/intrinsics.rs:299-302 | As written, `eval_error()` returns function index 0, although `eval_error` has no builtin slot. |
| `RealmIntrinsics.Intrinsics.CorrectedAccessor` | nova_vm/src/ecmascript/execution/realm/intrinsics.rs:299-302 | With `eval_error()` reporting `NotImplemented`, an accessor is available exactly when it is implemented and is not `eval_error()`. When available, it returns the stored index. |
| `RealmIntrinsics.CorrectedAccessorNeverPlaceholder` | nova_vm/src/ecmascript/execution/realm/intrinsics.rs:128-133 | With `eval_error()` corrected, every handle an accessor of the default table returns comes from a builtin slot, never from a placeholder. |
| `HeapArena.Heap.InsertBuiltinObject` | nova_vm/src/heap/function.rs:18-25 | The object slot holds exactly {prototype, entries}. When `is_constructor` holds, the paired function slot is populated. Every other slot is unchanged. |
| `FunctionHeap.InitializeFunctionHeap` | nova_vm/src/heap/function.rs:13-66 | See the list after the table. |
| `FunctionHeap.FunctionPrototypeLayout` | nova_vm/src/heap/function.rs:36-54 | `%Function.prototype%`'s keys are, in order, apply, bind, call, constructor, toString and @@hasInstance. The keys are distinct. The arities are 2, 1, 1, none, 0 and 1. |
| `FunctionHeap.FunctionPrototypeMethods` | nova_vm/src/heap/function.rs:37-46 | Looking up apply, bind, call and toString finds each entry with its arity (2, 1, 1, 0) and its constructible flag (false, true, true, false). |
| `FunctionHeap.HasInstanceKeyedBySymbol` | nova_vm/src/heap/function.rs:47-53 | hasInstance is found under the well-known symbol `HasInstance` with arity 1. Nothing is found under the string "hasInstance". |
| `FunctionHeap.PrototypeConstructorIsFunction` | nova_vm/src/heap/function.rs:40-45 | `%Function.prototype%.constructor` is an rwx data property. Its value is `Value::Function(get_constructor_index(FunctionConstructorIndex))`. |
| `FunctionHeap.FunctionProtoPopulatedAfterBootstrap` | nova_vm/src/heap/function.rs:58-65 | Once `%Function.prototype%` is installed, the realm's default prototype for the Function kind names a populated object slot. |
| `FunctionHeap.FunctionConstructorBinding` | nova_vm/src/heap/function.rs:68-74 | The binding always completes normally with the function handle of index 0. It reads no heap state. |
| `FunctionHeap.FunctionConstructorBindingIgnoresInputs` | nova_vm/src/heap/function.rs:68-74 | The binding's result does not depend on the heap, on `this` or on the arguments. |

The postconditions of `FunctionHeap.InitializeFunctionHeap` state its whole new state:

* `%Function%`'s object slot has [[Prototype]] `Object::Function(FunctionPrototypeIndex)`.
* `%Function%`'s object slot has exactly one entry: the constructor-prototype entry for `FunctionPrototypeIndex`.
* The function record at `get_constructor_index(FunctionConstructorIndex)` is {object_index = `FunctionConstructorIndex`, length 1, name Null}. This record is written after the first insert, and the second insert does not touch it.
* `%Function.prototype%`'s object slot has [[Prototype]] `Object::Object(ObjectPrototypeIndex)`.
* `%Function.prototype%`'s object slot holds the six entries in order.
* `%Function.prototype%`'s paired function slot is populated.
* Every other slot is unchanged.
* `%Function%.prototype.constructor` resolves back to `%Function%`'s own object slot.

## Findings

| source | as written | input that shows it | evidently intended | confidence | as-written member | corrected member |
|---|---|---|---|---|---|---|
| nova_vm/src/ecmascript/execution/realm/intrinsics.rs:299-302 | `eval_error()` is implemented as `Function::new(self.eval_error)`, but `Default::default` sets `eval_error` to the placeholder index 0 (line 131). | Take the default table and call `eval_error()`. It returns function index 0, a placeholder, as if it were `%EvalError%`. | `eval_error()` should report not implemented (`todo!()`), like `eval_error_prototype()` and the accessors of every other placeholder. | medium, not executed | `RealmIntrinsics.EvalErrorAccessorReturnsPlaceholder` | `RealmIntrinsics.Intrinsics.CorrectedAccessor` |

`CorrectedAccessor` changes only `eval_error`. No other member of the model calls `eval_error()`.

## Left out

- `HeapArena.Heap.InsertBuiltinObject`: the body of `insert_builtin_object` is not part of this model.
  - Its contract promises only that the paired function slot is populated. The function record written in its body is a stand-in.
  - No check against inserting into an already populated slot is modelled, because nothing in the modelled code enforces one.
- `FunctionHeap.InitializeFunctionHeap`: the heap is assumed presized. The precondition puts the object slots of `FunctionConstructorIndex` and `FunctionPrototypeIndex`, and their paired function slots, inside the arenas. So the out-of-bounds panic of the direct index at function.rs:26-27, and of the indexing inside the two inserts, is excluded rather than modelled.
  - `HeapArena.Heap.InsertBuiltinObject` likewise requires its object slot, and for a constructor its paired function slot, to be in bounds.
- Offsets: the numeric offsets of `BuiltinObjectIndexes`, their conversions into object and function indexes, and `get_constructor_index` are defined in `heap_constants.rs`, which is not part of this model. They are carried as a `SlotLayout` parameter.
  - Whether any implemented intrinsic itself sits at slot 0 cannot be decided without that file. So the model does not claim that implemented handles differ from the placeholder.
- Entry builders: the entry builders and `PropertyDescriptor::rwx` are not part of this model.
  - Each is kept as the term that names its call.
  - The attribute flags of builtin method entries are not claimed.
  - The builders' own reservation of function slots is not modelled, so the function table does not grow.
  - The key of the constructor-prototype entry is taken to be "prototype".
- Property keys: `PropertyKey::from_str` interns strings. The model keys properties by the string itself.
- Storage: converting entries into property storage is not modelled. `Lookup` reads the first entry with a key.
- Values: number and BigInt payloads are left out. `Value` has only the Null, Function and Object variants.
- Integer widths: `u32` index widths and the width of a function's `length` are not modelled. All are unbounded naturals; no arithmetic is done on them.
- `function_todo` and the bodies of apply, bind, call, toString and hasInstance are left out. They are `todo!()` or absent.
- Garbage collection and slot reclamation are left out. They are external to this core.
- Growth: the arenas are fixed-length arrays, so growth of the heap's vectors is not modelled.
