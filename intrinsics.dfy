/** The per-realm directory of well-known intrinsics (`Intrinsics`), its
    derivation from the builtin slot table (`Default::default`), its accessors,
    and the default-prototype lookup used by GetPrototypeFromConstructor
    (ECMAScript 2024, section 10.1.14).

    Accessors whose body is `todo!()` return `NotImplemented`; every other
    accessor wraps the stored index, unchanged, in its typed handle.
 */
module RealmIntrinsics {
  import opened Types
  import opened HeapConstants

  /** The result of an accessor: the handle, or the `todo!()` of an unimplemented one. */
  datatype Access<+T> = Available(value: T) | NotImplemented

  /** The kinds of object whose default [[Prototype]] the realm supplies. */
  datatype ProtoIntrinsics =
    | Array | ArrayBuffer | BigInt | Boolean | Error | EvalError | Function | Number
    | Object | RangeError | ReferenceError | String | Symbol | SyntaxError | TypeError | UriError

  /** One name per stored intrinsic, in declaration order. */
  datatype IntrinsicName =
    | Array | ArrayPrototype | ArrayBuffer | ArrayBufferPrototype | BigInt
    | BigIntPrototype | Boolean | BooleanPrototype | Error | ErrorPrototype | Eval
    | EvalError | EvalErrorPrototype | Function | FunctionPrototype | IsFinite | IsNaN
    | Math | Number | NumberPrototype | Object | ObjectPrototype | ObjectPrototypeToString
    | RangeError | RangeErrorPrototype | ReferenceError | ReferenceErrorPrototype
    | Reflect | String | StringPrototype | Symbol | SymbolPrototype | SyntaxError
    | SyntaxErrorPrototype | ThrowTypeError | TypeError | TypeErrorPrototype | UriError
    | UriErrorPrototype

  /** A stored index together with the arena it points into. */
  datatype Handle = FunctionHandle(functionIndex: FunctionIndex) | ObjectHandle(objectIndex: ObjectIndex)

  function OfFunction(a: Access<Types.Function>): Access<Handle> {
    match a
    case Available(f) => Available(FunctionHandle(f.index))
    case NotImplemented => NotImplemented
  }

  function OfObject(a: Access<Types.Object>): Access<Handle> {
    match a
    case Available(Object(o)) => Available(ObjectHandle(o))
    case Available(Function(f)) => Available(FunctionHandle(f))
    case NotImplemented => NotImplemented
  }

  function OfOrdinaryObject(a: Access<OrdinaryObject>): Access<Handle> {
    match a
    case Available(o) => Available(ObjectHandle(o.index))
    case NotImplemented => NotImplemented
  }

  /** The fields whose declared type is a function index. */
  predicate IsFunctionField(n: IntrinsicName) {
    n.Array? || n.ArrayBuffer? || n.BigInt? || n.Boolean? || n.Error? || n.Eval?
      || n.EvalError? || n.Function? || n.IsFinite? || n.IsNaN? || n.Number? || n.Object?
      || n.ObjectPrototypeToString? || n.RangeError? || n.ReferenceError? || n.Reflect?
      || n.String? || n.Symbol? || n.SyntaxError? || n.ThrowTypeError? || n.TypeError?
      || n.UriError?
  }

  /** The accessors whose body is `todo!()`. */
  predicate IsTodoAccessor(n: IntrinsicName) {
    n.Eval? || n.EvalErrorPrototype? || n.IsFinite? || n.IsNaN?
      || n.ObjectPrototypeToString? || n.RangeError? || n.RangeErrorPrototype?
      || n.ReferenceError? || n.ReferenceErrorPrototype? || n.Reflect? || n.SyntaxError?
      || n.SyntaxErrorPrototype? || n.ThrowTypeError? || n.TypeError?
      || n.TypeErrorPrototype? || n.UriError? || n.UriErrorPrototype?
  }

  /** The six native-error kinds. */
  predicate IsNativeErrorKind(k: ProtoIntrinsics) {
    k.EvalError? || k.RangeError? || k.ReferenceError? || k.SyntaxError? || k.TypeError? || k.UriError?
  }

  /** The intrinsic that is the default prototype of each kind. */
  function PrototypeName(k: ProtoIntrinsics): IntrinsicName {
    match k
    case Array => IntrinsicName.ArrayPrototype
    case ArrayBuffer => IntrinsicName.ArrayBufferPrototype
    case BigInt => IntrinsicName.BigIntPrototype
    case Boolean => IntrinsicName.BooleanPrototype
    case Error => IntrinsicName.ErrorPrototype
    case EvalError => IntrinsicName.EvalErrorPrototype
    case Function => IntrinsicName.FunctionPrototype
    case Number => IntrinsicName.NumberPrototype
    case Object => IntrinsicName.ObjectPrototype
    case RangeError => IntrinsicName.RangeErrorPrototype
    case ReferenceError => IntrinsicName.ReferenceErrorPrototype
    case String => IntrinsicName.StringPrototype
    case Symbol => IntrinsicName.SymbolPrototype
    case SyntaxError => IntrinsicName.SyntaxErrorPrototype
    case TypeError => IntrinsicName.TypeErrorPrototype
    case UriError => IntrinsicName.UriErrorPrototype
  }

  /** The builtin slot each intrinsic is taken from by `Default::default`;
      `None` marks a placeholder, which holds index 0 instead. */
  function SlotOf(n: IntrinsicName): Option<BuiltinObjectIndexes> {
    match n
    case Array => Some(ArrayConstructorIndex)
    case ArrayPrototype => Some(ArrayPrototypeIndex)
    case ArrayBuffer => Some(ArrayBufferConstructorIndex)
    case ArrayBufferPrototype => Some(ArrayBufferPrototypeIndex)
    case BigInt => Some(BigintConstructorIndex)
    case BigIntPrototype => Some(BigintPrototypeIndex)
    case Boolean => Some(BooleanConstructorIndex)
    case BooleanPrototype => Some(BooleanPrototypeIndex)
    case Error => Some(ErrorConstructorIndex)
    case ErrorPrototype => Some(ErrorPrototypeIndex)
    case Eval => None
    case EvalError => None
    case EvalErrorPrototype => None
    case Function => Some(FunctionConstructorIndex)
    case FunctionPrototype => Some(FunctionPrototypeIndex)
    case IsFinite => None
    case IsNaN => None
    case Math => Some(MathObjectIndex)
    case Number => Some(NumberConstructorIndex)
    case NumberPrototype => Some(NumberPrototypeIndex)
    case Object => Some(ObjectConstructorIndex)
    case ObjectPrototype => Some(ObjectPrototypeIndex)
    case ObjectPrototypeToString => None
    case RangeError => None
    case RangeErrorPrototype => None
    case ReferenceError => None
    case ReferenceErrorPrototype => None
    case Reflect => Some(ReflectObjectIndex)
    case String => Some(StringConstructorIndex)
    case StringPrototype => Some(StringPrototypeIndex)
    case Symbol => Some(SymbolConstructorIndex)
    case SymbolPrototype => Some(SymbolPrototypeIndex)
    case SyntaxError => None
    case SyntaxErrorPrototype => None
    case ThrowTypeError => None
    case TypeError => None
    case TypeErrorPrototype => None
    case UriError => None
    case UriErrorPrototype => None
  }

  /** What `Default::default` stores for an intrinsic, read off the slot table. */
  function Derived(L: SlotLayout, n: IntrinsicName): Handle {
    match SlotOf(n)
    case None => if IsFunctionField(n) then FunctionHandle(PlaceholderFunction) else ObjectHandle(PlaceholderObject)
    case Some(s) => if IsFunctionField(n) then FunctionHandle(L.functionIndex(s)) else ObjectHandle(L.objectIndex(s))
  }

  /** `Intrinsics`: one stored index per well-known intrinsic, copied freely and
      never updated. `%Function.prototype%` is stored as a plain object index,
      not as a function, as Nova does. */
  datatype Intrinsics = Intrinsics(
    arrayConstructor: FunctionIndex,
    arrayPrototype: ObjectIndex,
    arrayBuffer: FunctionIndex,
    arrayBufferPrototype: ObjectIndex,
    bigInt: FunctionIndex,
    bigIntPrototype: ObjectIndex,
    boolean: FunctionIndex,
    booleanPrototype: ObjectIndex,
    error: FunctionIndex,
    errorPrototype: ObjectIndex,
    eval: FunctionIndex,
    evalError: FunctionIndex,
    evalErrorPrototype: ObjectIndex,
    functionConstructor: FunctionIndex,
    functionPrototype: ObjectIndex,
    isFinite: FunctionIndex,
    isNaN: FunctionIndex,
    math: ObjectIndex,
    number: FunctionIndex,
    numberPrototype: ObjectIndex,
    objectConstructor: FunctionIndex,
    objectPrototype: ObjectIndex,
    objectPrototypeToString: FunctionIndex,
    rangeError: FunctionIndex,
    rangeErrorPrototype: ObjectIndex,
    referenceError: FunctionIndex,
    referenceErrorPrototype: ObjectIndex,
    reflect: FunctionIndex,
    stringConstructor: FunctionIndex,
    stringPrototype: ObjectIndex,
    symbol: FunctionIndex,
    symbolPrototype: ObjectIndex,
    syntaxError: FunctionIndex,
    syntaxErrorPrototype: ObjectIndex,
    throwTypeError: FunctionIndex,
    typeError: FunctionIndex,
    typeErrorPrototype: ObjectIndex,
    uriError: FunctionIndex,
    uriErrorPrototype: ObjectIndex)
  {
    // The accessors (`&self` const fns). A `todo!()` body is `NotImplemented`.
    function GetArray(): Access<Function> { Available(Function.New(arrayConstructor)) }
    function GetArrayPrototype(): Access<Object> { Available(Object.Object(arrayPrototype)) }
    function GetArrayBuffer(): Access<Function> { Available(Function.New(arrayBuffer)) }
    function GetArrayBufferPrototype(): Access<OrdinaryObject> { Available(OrdinaryObject.New(arrayBufferPrototype)) }
    function GetBigInt(): Access<Function> { Available(Function.New(bigInt)) }
    function GetBigIntPrototype(): Access<Object> { Available(Object.Object(bigIntPrototype)) }
    function GetBoolean(): Access<Function> { Available(Function.New(boolean)) }
    function GetBooleanPrototype(): Access<Object> { Available(Object.Object(booleanPrototype)) }
    function GetError(): Access<Function> { Available(Function.New(error)) }
    function GetErrorPrototype(): Access<Object> { Available(Object.Object(errorPrototype)) }
    function GetEval(): Access<Function> { NotImplemented }
    function GetEvalError(): Access<Function> { Available(Function.New(evalError)) }
    function GetEvalErrorPrototype(): Access<Object> { NotImplemented }
    function GetFunction(): Access<Function> { Available(Function.New(functionConstructor)) }
    function GetFunctionPrototype(): Access<Object> { Available(Object.Object(functionPrototype)) }
    function GetIsFinite(): Access<Function> { NotImplemented }
    function GetIsNaN(): Access<Function> { NotImplemented }
    function GetMath(): Access<Object> { Available(Object.Object(math)) }
    function GetNumber(): Access<Function> { Available(Function.New(number)) }
    function GetNumberPrototype(): Access<Object> { Available(Object.Object(numberPrototype)) }
    function GetObject(): Access<Function> { Available(Function.New(objectConstructor)) }
    function GetObjectPrototype(): Access<Object> { Available(Object.Object(objectPrototype)) }
    function GetObjectPrototypeToString(): Access<Object> { NotImplemented }
    function GetRangeError(): Access<Object> { NotImplemented }
    function GetRangeErrorPrototype(): Access<Object> { NotImplemented }
    function GetReferenceError(): Access<Object> { NotImplemented }
    function GetReferenceErrorPrototype(): Access<Object> { NotImplemented }
    function GetReflect(): Access<Object> { NotImplemented }
    function GetString(): Access<Function> { Available(Function.New(stringConstructor)) }
    function GetStringPrototype(): Access<Object> { Available(Object.Object(stringPrototype)) }
    function GetSymbol(): Access<Function> { Available(Function.New(symbol)) }
    function GetSymbolPrototype(): Access<Object> { Available(Object.Object(symbolPrototype)) }
    function GetSyntaxError(): Access<Object> { NotImplemented }
    function GetSyntaxErrorPrototype(): Access<Object> { NotImplemented }
    function GetThrowTypeError(): Access<Object> { NotImplemented }
    function GetTypeError(): Access<Object> { NotImplemented }
    function GetTypeErrorPrototype(): Access<Object> { NotImplemented }
    function GetUriError(): Access<Object> { NotImplemented }
    function GetUriErrorPrototype(): Access<Object> { NotImplemented }


    /** The stored index of an intrinsic, with its arena. */
    function Stored(n: IntrinsicName): Handle {
      match n
      case Array => FunctionHandle(arrayConstructor)
      case ArrayPrototype => ObjectHandle(arrayPrototype)
      case ArrayBuffer => FunctionHandle(arrayBuffer)
      case ArrayBufferPrototype => ObjectHandle(arrayBufferPrototype)
      case BigInt => FunctionHandle(bigInt)
      case BigIntPrototype => ObjectHandle(bigIntPrototype)
      case Boolean => FunctionHandle(boolean)
      case BooleanPrototype => ObjectHandle(booleanPrototype)
      case Error => FunctionHandle(error)
      case ErrorPrototype => ObjectHandle(errorPrototype)
      case Eval => FunctionHandle(eval)
      case EvalError => FunctionHandle(evalError)
      case EvalErrorPrototype => ObjectHandle(evalErrorPrototype)
      case Function => FunctionHandle(functionConstructor)
      case FunctionPrototype => ObjectHandle(functionPrototype)
      case IsFinite => FunctionHandle(isFinite)
      case IsNaN => FunctionHandle(isNaN)
      case Math => ObjectHandle(math)
      case Number => FunctionHandle(number)
      case NumberPrototype => ObjectHandle(numberPrototype)
      case Object => FunctionHandle(objectConstructor)
      case ObjectPrototype => ObjectHandle(objectPrototype)
      case ObjectPrototypeToString => FunctionHandle(objectPrototypeToString)
      case RangeError => FunctionHandle(rangeError)
      case RangeErrorPrototype => ObjectHandle(rangeErrorPrototype)
      case ReferenceError => FunctionHandle(referenceError)
      case ReferenceErrorPrototype => ObjectHandle(referenceErrorPrototype)
      case Reflect => FunctionHandle(reflect)
      case String => FunctionHandle(stringConstructor)
      case StringPrototype => ObjectHandle(stringPrototype)
      case Symbol => FunctionHandle(symbol)
      case SymbolPrototype => ObjectHandle(symbolPrototype)
      case SyntaxError => FunctionHandle(syntaxError)
      case SyntaxErrorPrototype => ObjectHandle(syntaxErrorPrototype)
      case ThrowTypeError => FunctionHandle(throwTypeError)
      case TypeError => FunctionHandle(typeError)
      case TypeErrorPrototype => ObjectHandle(typeErrorPrototype)
      case UriError => FunctionHandle(uriError)
      case UriErrorPrototype => ObjectHandle(uriErrorPrototype)
    }

    /** All accessors behind one name: each returns its stored index unchanged,
        or is not implemented. */
    function Accessor(n: IntrinsicName): (r: Access<Handle>)
      ensures r.Available? <==> !IsTodoAccessor(n)
      ensures r.Available? ==> r.value == Stored(n)
    {
      match n
      case Array => OfFunction(GetArray())
      case ArrayPrototype => OfObject(GetArrayPrototype())
      case ArrayBuffer => OfFunction(GetArrayBuffer())
      case ArrayBufferPrototype => OfOrdinaryObject(GetArrayBufferPrototype())
      case BigInt => OfFunction(GetBigInt())
      case BigIntPrototype => OfObject(GetBigIntPrototype())
      case Boolean => OfFunction(GetBoolean())
      case BooleanPrototype => OfObject(GetBooleanPrototype())
      case Error => OfFunction(GetError())
      case ErrorPrototype => OfObject(GetErrorPrototype())
      case Eval => OfFunction(GetEval())
      case EvalError => OfFunction(GetEvalError())
      case EvalErrorPrototype => OfObject(GetEvalErrorPrototype())
      case Function => OfFunction(GetFunction())
      case FunctionPrototype => OfObject(GetFunctionPrototype())
      case IsFinite => OfFunction(GetIsFinite())
      case IsNaN => OfFunction(GetIsNaN())
      case Math => OfObject(GetMath())
      case Number => OfFunction(GetNumber())
      case NumberPrototype => OfObject(GetNumberPrototype())
      case Object => OfFunction(GetObject())
      case ObjectPrototype => OfObject(GetObjectPrototype())
      case ObjectPrototypeToString => OfObject(GetObjectPrototypeToString())
      case RangeError => OfObject(GetRangeError())
      case RangeErrorPrototype => OfObject(GetRangeErrorPrototype())
      case ReferenceError => OfObject(GetReferenceError())
      case ReferenceErrorPrototype => OfObject(GetReferenceErrorPrototype())
      case Reflect => OfObject(GetReflect())
      case String => OfFunction(GetString())
      case StringPrototype => OfObject(GetStringPrototype())
      case Symbol => OfFunction(GetSymbol())
      case SymbolPrototype => OfObject(GetSymbolPrototype())
      case SyntaxError => OfObject(GetSyntaxError())
      case SyntaxErrorPrototype => OfObject(GetSyntaxErrorPrototype())
      case ThrowTypeError => OfObject(GetThrowTypeError())
      case TypeError => OfObject(GetTypeError())
      case TypeErrorPrototype => OfObject(GetTypeErrorPrototype())
      case UriError => OfObject(GetUriError())
      case UriErrorPrototype => OfObject(GetUriErrorPrototype())
    }

    /** `get_intrinsic_default_proto`: the default [[Prototype]] of a kind. It
        is available exactly for the ten kinds that are not native errors, and
        then it is the stored prototype index of that kind, as an ordinary object. */
    function GetIntrinsicDefaultProto(k: ProtoIntrinsics): (r: Access<Types.Object>)
      ensures r.Available? <==> !IsNativeErrorKind(k)
      ensures r.Available? ==> r.value.Object? && Stored(PrototypeName(k)) == ObjectHandle(r.value.objectIndex)
    {
      match k
      case Array => GetArrayPrototype()
      case ArrayBuffer =>
        (match GetArrayBufferPrototype()
         case Available(o) => Available(o.Into())
         case NotImplemented => NotImplemented)
      case BigInt => GetBigIntPrototype()
      case Boolean => GetBooleanPrototype()
      case Error => GetErrorPrototype()
      case EvalError => GetEvalErrorPrototype()
      case Function => GetFunctionPrototype()
      case Number => GetNumberPrototype()
      case Object => GetObjectPrototype()
      case RangeError => GetRangeErrorPrototype()
      case ReferenceError => GetReferenceErrorPrototype()
      case String => GetStringPrototype()
      case Symbol => GetSymbolPrototype()
      case SyntaxError => GetSyntaxErrorPrototype()
      case TypeError => GetTypeErrorPrototype()
      case UriError => GetUriErrorPrototype()
    }

    /** `eval_error` as evidently intended: its field is a placeholder, so its
        accessor reports `NotImplemented` like every other placeholder's. */
    function GetEvalErrorCorrected(): Access<Function> { NotImplemented }

    /** The accessors with `eval_error` corrected: available exactly for the
        implemented accessors other than `eval_error`, each returning its stored
        index unchanged. */
    function CorrectedAccessor(n: IntrinsicName): (r: Access<Handle>)
      ensures r.Available? <==> !IsTodoAccessor(n) && !n.EvalError?
      ensures r.Available? ==> r.value == Stored(n)
    {
      if n.EvalError? then OfFunction(GetEvalErrorCorrected()) else Accessor(n)
    }
  }

  /** `Default::default`: every intrinsic taken from its builtin slot, every
      placeholder set to index 0. */
  function Default(L: SlotLayout): (r: Intrinsics)
    ensures forall n :: r.Stored(n) == Derived(L, n)
  {
    Intrinsics(
      arrayConstructor := L.functionIndex(ArrayConstructorIndex),
      arrayPrototype := L.objectIndex(ArrayPrototypeIndex),
      arrayBuffer := L.functionIndex(ArrayBufferConstructorIndex),
      arrayBufferPrototype := L.objectIndex(ArrayBufferPrototypeIndex),
      bigInt := L.functionIndex(BigintConstructorIndex),
      bigIntPrototype := L.objectIndex(BigintPrototypeIndex),
      boolean := L.functionIndex(BooleanConstructorIndex),
      booleanPrototype := L.objectIndex(BooleanPrototypeIndex),
      error := L.functionIndex(ErrorConstructorIndex),
      errorPrototype := L.objectIndex(ErrorPrototypeIndex),
      eval := PlaceholderFunction,
      evalError := PlaceholderFunction,
      evalErrorPrototype := PlaceholderObject,
      functionConstructor := L.functionIndex(FunctionConstructorIndex),
      functionPrototype := L.objectIndex(FunctionPrototypeIndex),
      isFinite := PlaceholderFunction,
      isNaN := PlaceholderFunction,
      math := L.objectIndex(MathObjectIndex),
      number := L.functionIndex(NumberConstructorIndex),
      numberPrototype := L.objectIndex(NumberPrototypeIndex),
      objectConstructor := L.functionIndex(ObjectConstructorIndex),
      objectPrototype := L.objectIndex(ObjectPrototypeIndex),
      objectPrototypeToString := PlaceholderFunction,
      rangeError := PlaceholderFunction,
      rangeErrorPrototype := PlaceholderObject,
      referenceError := PlaceholderFunction,
      referenceErrorPrototype := PlaceholderObject,
      reflect := L.functionIndex(ReflectObjectIndex),
      stringConstructor := L.functionIndex(StringConstructorIndex),
      stringPrototype := L.objectIndex(StringPrototypeIndex),
      symbol := L.functionIndex(SymbolConstructorIndex),
      symbolPrototype := L.objectIndex(SymbolPrototypeIndex),
      syntaxError := PlaceholderFunction,
      syntaxErrorPrototype := PlaceholderObject,
      throwTypeError := PlaceholderFunction,
      typeError := PlaceholderFunction,
      typeErrorPrototype := PlaceholderObject,
      uriError := PlaceholderFunction,
      uriErrorPrototype := PlaceholderObject
    )
  }

  /** GetPrototypeFromConstructor's default step on the table `Default::default`
      builds: each of the ten implemented kinds gives the ordinary object at its
      prototype's builtin slot; the six native-error kinds are not implemented. */
  lemma DefaultProtoFromSlotTable(L: SlotLayout, k: ProtoIntrinsics)
    ensures var r := Default(L).GetIntrinsicDefaultProto(k);
      if IsNativeErrorKind(k) then r == NotImplemented
      else (SlotOf(PrototypeName(k)).Some? &&
            r == Available(Object.Object(L.objectIndex(SlotOf(PrototypeName(k)).value))))
  {
    var d := Default(L);
    var n := PrototypeName(k);
    assert d.Stored(n) == Derived(L, n);
  }

  /** The default prototype of the Function kind is `%Function.prototype%`'s builtin slot. */
  lemma DefaultFunctionProto(L: SlotLayout)
    ensures Default(L).GetIntrinsicDefaultProto(ProtoIntrinsics.Function) ==
      Available(Object.Object(L.objectIndex(FunctionPrototypeIndex)))
  {
    DefaultProtoFromSlotTable(L, ProtoIntrinsics.Function);
  }

  /** The lookup fails for exactly the kinds whose prototype `Default::default`
      fills with a placeholder. */
  lemma ProtoAvailableIffSlotted(L: SlotLayout, k: ProtoIntrinsics)
    ensures Default(L).GetIntrinsicDefaultProto(k).Available? <==> SlotOf(PrototypeName(k)).Some?
  {
  }

  /** Implemented fields hold the index of their builtin slot. */
  lemma DefaultFieldsFromSlots(L: SlotLayout)
    ensures Default(L).objectPrototype == L.objectIndex(ObjectPrototypeIndex)
    ensures Default(L).functionConstructor == L.functionIndex(FunctionConstructorIndex)
    ensures Default(L).functionPrototype == L.objectIndex(FunctionPrototypeIndex)
    ensures Default(L).arrayPrototype == L.objectIndex(ArrayPrototypeIndex)
    ensures Default(L).reflect == L.functionIndex(ReflectObjectIndex)
  {
  }

  /** Every placeholder holds index 0, so distinct placeholder intrinsics are
      equal handles. */
  lemma PlaceholdersAlias(L: SlotLayout)
    ensures var d := Default(L);
      d.eval == d.evalError == d.isFinite == d.isNaN == d.objectPrototypeToString == d.rangeError ==
      d.referenceError == d.syntaxError == d.throwTypeError == d.typeError == d.uriError == PlaceholderFunction
    ensures var d := Default(L);
      d.evalErrorPrototype == d.rangeErrorPrototype == d.referenceErrorPrototype ==
      d.syntaxErrorPrototype == d.typeErrorPrototype == d.uriErrorPrototype == PlaceholderObject
    ensures forall n :: SlotOf(n).None? ==>
      Default(L).Stored(n) == (if IsFunctionField(n) then FunctionHandle(PlaceholderFunction) else ObjectHandle(PlaceholderObject))
  {
  }

  /** `reflect`, `eval`, `is_finite`, `is_nan` and `object_prototype_to_string`
      cannot be read through their accessors whatever the table holds, and
      `reflect` even though `Default::default` sets it from its builtin slot. */
  lemma UnreadableIntrinsics(d: Intrinsics, L: SlotLayout)
    ensures d.GetReflect().NotImplemented? && d.GetEval().NotImplemented?
    ensures d.GetIsFinite().NotImplemented? && d.GetIsNaN().NotImplemented?
    ensures d.GetObjectPrototypeToString().NotImplemented?
    ensures Default(L).reflect == L.functionIndex(ReflectObjectIndex)
  {
  }

  /** `Default::default` reads nothing but the slot table: two derivations from
      the same slot conversions are equal field for field. */
  lemma DefaultDeterministic(L1: SlotLayout, L2: SlotLayout)
    requires forall s :: L1.objectIndex(s) == L2.objectIndex(s)
    requires forall s :: L1.functionIndex(s) == L2.functionIndex(s)
    ensures Default(L1) == Default(L2)
  {
  }

  /** As written, the `eval_error` accessor is implemented although its field is
      a placeholder, so it hands out index 0 as if it were `%EvalError%`. */
  lemma EvalErrorAccessorReturnsPlaceholder(L: SlotLayout)
    ensures SlotOf(IntrinsicName.EvalError).None?
    ensures Default(L).Accessor(IntrinsicName.EvalError) == Available(FunctionHandle(PlaceholderFunction))
  {
  }

  /** With `eval_error` corrected, no accessor of the default table hands out a
      placeholder: whatever it returns comes from a builtin slot. */
  lemma CorrectedAccessorNeverPlaceholder(L: SlotLayout, n: IntrinsicName)
    ensures var r := Default(L).CorrectedAccessor(n);
      r.Available? ==> SlotOf(n).Some? && r.value == Derived(L, n)
  {
  }
}
