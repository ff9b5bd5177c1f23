/** The closed algebra of types the CUDA typing tables reason over, and the
    outcome of one resolution attempt. */
module CudaTypes {

  /** Memory layout tag of an array type; allocations always produce `C`. */
  datatype Layout = C | F | A

  /** The pseudo-modules whose attributes are resolved: `cuda` and its
      sub-namespaces `cuda.shared`, `cuda.const`, `cuda.local`, `cuda.atomic`. */
  datatype ModuleId = Cuda | Shared | Const | Local | Atomic

  /** One identity per registered typing template. */
  datatype RuleId =
    | Grid | Gridsize
    | SharedArray | LocalArray | ConstArrayLike
    | Syncthreads | SyncthreadsCount | SyncthreadsAnd | SyncthreadsOr
    | ThreadfenceDevice | ThreadfenceBlock | ThreadfenceSystem | Syncwarp
    | ShflSyncIntrinsic | VoteSyncIntrinsic | MatchAnySync | MatchAllSync
    | Popc | Fma | Brev | Clz | Ffs
    | Selp
    | AtomicAdd | AtomicMax | AtomicMin | AtomicCompareAndSwap

  /** A type as the typer sees it.  `IntLiteral` is an integer type whose
      compile-time value is known; `UniTuple(elem, count)` is a tuple of
      `count` copies of `elem`; `Function(rule)` is the type of a reference to
      the intrinsic typed by `rule`; `Dim3` is the opaque `dim3` triple. */
  datatype Type =
    | Int(width: nat, signed: bool)
    | Float(width: nat)
    | Bool
    | NoneT
    | Tuple(items: seq<Type>)
    | UniTuple(elem: Type, count: nat)
    | IntLiteral(value: int)
    | Array(dtype: Type, ndim: nat, layout: Layout)
    | Module(id: ModuleId)
    | Function(rule: RuleId)
    | Dim3

  /** A return type and the parameter types it was resolved for. */
  datatype Signature = Signature(ret: Type, params: seq<Type>)

  const Int8: Type := Int(8, true)
  const Int16: Type := Int(16, true)
  const Int32: Type := Int(32, true)
  const Int64: Type := Int(64, true)
  const UInt8: Type := Int(8, false)
  const UInt16: Type := Int(16, false)
  const UInt32: Type := Int(32, false)
  const UInt64: Type := Int(64, false)
  const Float32: Type := Float(32)
  const Float64: Type := Float(64)
  /** The platform-sized index type, fixed here at 64 signed bits. */
  const Intp: Type := Int64

  /** `isinstance(t, types.Integer)`: an integer literal is also an integer. */
  predicate IsInteger(t: Type) {
    t.Int? || t.IntLiteral?
  }

  /** The eight fixed-width machine integer types. */
  predicate IsMachineInteger(t: Type) {
    t.Int? && t.width in {8, 16, 32, 64}
  }

  /** What iterating over a tuple type yields: its element types in order. */
  function Elements(t: Type): (es: seq<Type>)
    requires t.Tuple? || t.UniTuple?
    ensures t.Tuple? ==> es == t.items
    ensures t.UniTuple? ==> |es| == t.count && forall i :: 0 <= i < |es| ==> es[i] == t.elem
  {
    if t.Tuple? then t.items else seq(t.count, _ => t.elem)
  }
}

/** How one resolution attempt ends. */
module Resolution {

  datatype Option<T> = None | Some(value: T)

  /** A fatal error: the program is wrong whatever overload is tried. */
  datatype Failure =
    | LiteralOutOfDomain(value: int)   // a literal argument outside its documented domain
    | NotALiteral                      // a literal value read from a type without one
    | NotAnArray                       // array fields read from a non-array type
    | ArityMismatch(expected: nat, actual: nat)
    | KeywordArguments                 // keyword arguments given to an intrinsic

  /** `Resolved` carries the result; `Unresolved` is the soft "no overload"
      answer; `Raised` is a fatal error. */
  datatype Outcome<T> = Resolved(value: T) | Unresolved | Raised(failure: Failure)
}
