/** The custom typers: the grid-dimension typer, the array allocation and
    `array_like` typers, branch-select and the atomic operations. */
module CudaTypers {
  import opened CudaTypes
  import opened Resolution

  /** The shape parser and the dtype parser the array allocation typer hands
      its arguments to; both live outside this model, so every property below
      holds for any pair of them. */
  datatype Parsers = Parsers(shape: Type -> Option<nat>, dtype: Type -> Option<Type>)

  // ---------------------------------------------------------------- grid

  /** How many `int32` coordinates a grid query of type `t` returns. */
  function GridCoordinates(t: Type): nat {
    if t == Int32 then 1
    else if t.UniTuple? && t.elem == Int32 then t.count
    else 0
  }

  /** Typer of `cuda.grid(n)` and `cuda.gridsize(n)`: the literal `n` says
      how many `int32` coordinates come back. A literal outside 1..3, or an
      argument without a literal value, is fatal and never a soft failure. */
  function GridTyper(ndim: Type): (r: Outcome<Signature>)
    ensures !r.Unresolved?
    ensures r.Resolved? <==> ndim.IntLiteral? && 1 <= ndim.value <= 3
    ensures r.Resolved? ==> r.value.params == [Int32]
                            && GridCoordinates(r.value.ret) == ndim.value
    ensures r.Resolved? && ndim.value == 1 ==> r.value.ret == Int32
    ensures r.Resolved? && ndim.value > 1 ==> r.value.ret == UniTuple(Int32, ndim.value)
    ensures ndim.IntLiteral? && !(1 <= ndim.value <= 3) ==>
              r == Raised(LiteralOutOfDomain(ndim.value))
    ensures !ndim.IntLiteral? ==> r == Raised(NotALiteral)
  {
    match ndim
    case IntLiteral(v) =>
      if v == 1 then Resolved(Signature(Int32, [Int32]))
      else if v == 2 || v == 3 then Resolved(Signature(UniTuple(Int32, v), [Int32]))
      else Raised(LiteralOutOfDomain(v))
    case _ => Raised(NotALiteral)
  }

  // ------------------------------------------------------- array allocation

  /** Whether every type in `ts` is an integer literal. */
  function AllIntLiterals(ts: seq<Type>): (b: bool)
    ensures b <==> forall i :: 0 <= i < |ts| ==> ts[i].IntLiteral?
  {
    if ts == [] then true else ts[0].IntLiteral? && AllIntLiterals(ts[1..])
  }

  /** The shape check of the allocation typer: an integer must be a literal,
      a tuple must hold only literals, anything else is refused. */
  function ShapeIsLiteral(shape: Type): bool {
    if IsInteger(shape) then shape.IntLiteral?
    else if shape.Tuple? || shape.UniTuple? then AllIntLiterals(Elements(shape))
    else false
  }

  /** Typer of `cuda.shared.array(shape, dtype)` and
      `cuda.local.array(shape, dtype)`: a C-contiguous array whose rank the
      shape parser and whose element type the dtype parser give, provided the
      shape is known at compile time and both parsers succeed. */
  function ArrayDeclTyper(shape: Type, dtype: Type, parsers: Parsers): (r: Option<Type>)
    ensures r.Some? <==>
              (shape.IntLiteral?
               || ((shape.Tuple? || shape.UniTuple?)
                   && forall i :: 0 <= i < |Elements(shape)| ==> Elements(shape)[i].IntLiteral?))
              && parsers.shape(shape).Some? && parsers.dtype(dtype).Some?
    ensures r.Some? ==> r.value == Array(parsers.dtype(dtype).value, parsers.shape(shape).value, C)
  {
    if !ShapeIsLiteral(shape) then None
    else
      var ndim := parsers.shape(shape);
      var nbDtype := parsers.dtype(dtype);
      if nbDtype.Some? && ndim.Some? then Some(Array(nbDtype.value, ndim.value, C))
      else None
  }

  /** Typer of `cuda.const.array_like(ndarray)`: the argument's own type. */
  function ConstArrayLikeTyper(ndarray: Type): (r: Option<Type>)
    ensures r == Some(ndarray)
  {
    Some(ndarray)
  }

  // ---------------------------------------------------------- branch select

  /** The operand types `selp` supports. */
  const SelpTypes: seq<Type> := [Float64, Float32, Int16, UInt16, Int32, UInt32, Int64, UInt64]

  /** The `selp` whitelist is the two wide floats and the 16-, 32- and 64-bit
      integers of either signedness. */
  lemma SelpTypesAreWideNumbers(t: Type)
    ensures t in SelpTypes <==>
              (t.Float? && t.width in {32, 64}) || (t.Int? && t.width in {16, 32, 64})
  {
    if t.Int? && t.width in {16, 32, 64} {
      assert t == Int(t.width, t.signed);
      if t.signed { assert t in [Int16, Int32, Int64]; } else { assert t in [UInt16, UInt32, UInt64]; }
    }
  }

  /** Typer of `cuda.selp(test, a, b)`: both branches must have one supported
      type, which is the result type. */
  function SelpTyper(args: seq<Type>, kws: map<string, Type>): (r: Outcome<Signature>)
    requires kws == map[]
    ensures r.Raised? <==> |args| != 3
    ensures r.Raised? ==> r.failure == ArityMismatch(3, |args|)
    ensures r.Resolved? <==> |args| == 3 && args[1] == args[2] && args[1] in SelpTypes
    ensures r.Resolved? ==> r.value == Signature(args[1], [args[0], args[1], args[1]])
  {
    if |args| != 3 then Raised(ArityMismatch(3, |args|))
    else
      var test, a, b := args[0], args[1], args[2];
      if a != b || a !in SelpTypes then Unresolved
      else Resolved(Signature(a, [test, a, a]))
  }

  // ------------------------------------------------------- atomic operations

  /** Typer of `cuda.atomic.add(ary, idx, val)`: a 1-D array is indexed by
      `intp`, a higher-rank array by the index type supplied, and the value
      and the result have the array's element type; a 0-D array has no
      overload. */
  function AtomicAddTyper(args: seq<Type>, kws: map<string, Type>): (r: Outcome<Signature>)
    requires kws == map[]
    ensures |args| != 3 ==> r == Raised(ArityMismatch(3, |args|))
    ensures |args| == 3 && !args[0].Array? ==> r == Raised(NotAnArray)
    ensures r.Raised? <==> |args| != 3 || !args[0].Array?
    ensures r.Resolved? <==> |args| == 3 && args[0].Array? && args[0].ndim >= 1
    ensures r.Resolved? ==> r.value.ret == args[0].dtype
                            && |r.value.params| == 3
                            && r.value.params[0] == args[0]
                            && r.value.params[2] == args[0].dtype
    ensures r.Resolved? && args[0].ndim == 1 ==> r.value.params[1] == Intp
    ensures r.Resolved? && args[0].ndim > 1 ==> r.value.params[1] == args[1]
  {
    if |args| != 3 then Raised(ArityMismatch(3, |args|))
    else
      var ary, idx := args[0], args[1];
      if !ary.Array? then Raised(NotAnArray)
      else if ary.ndim == 1 then Resolved(Signature(ary.dtype, [ary, Intp, ary.dtype]))
      else if ary.ndim > 1 then Resolved(Signature(ary.dtype, [ary, idx, ary.dtype]))
      else Unresolved
  }

  /** The element types `atomic.max` and `atomic.min` support. */
  const AtomicMaxMinTypes: seq<Type> := [Float64, Float32, Int32, UInt32, Int64, UInt64]

  /** Typer of `cuda.atomic.max` and `cuda.atomic.min`: the element type must
      be supported, then the rank decides as for `add`, whose signature a
      resolved call gets. */
  function AtomicMaxMinTyper(args: seq<Type>, kws: map<string, Type>): (r: Outcome<Signature>)
    requires kws == map[]
    ensures |args| != 3 ==> r == Raised(ArityMismatch(3, |args|))
    ensures |args| == 3 && !args[0].Array? ==> r == Raised(NotAnArray)
    ensures r.Raised? <==> |args| != 3 || !args[0].Array?
    ensures r.Resolved? <==> |args| == 3 && args[0].Array? && args[0].dtype in AtomicMaxMinTypes
                             && args[0].ndim >= 1
    ensures r.Resolved? ==> r == AtomicAddTyper(args, kws)
  {
    if |args| != 3 then Raised(ArityMismatch(3, |args|))
    else
      var ary, idx := args[0], args[1];
      if !ary.Array? then Raised(NotAnArray)
      else if ary.dtype !in AtomicMaxMinTypes then Unresolved
      else if ary.ndim == 1 then Resolved(Signature(ary.dtype, [ary, Intp, ary.dtype]))
      else if ary.ndim > 1 then Resolved(Signature(ary.dtype, [ary, idx, ary.dtype]))
      else Unresolved
  }

  /** `max` and `min` are `add` restricted to their element-type whitelist. */
  lemma AtomicMaxMinIsGuardedAdd(args: seq<Type>)
    ensures AtomicMaxMinTyper(args, map[]) ==
              if |args| == 3 && args[0].Array? && args[0].dtype !in AtomicMaxMinTypes
              then Unresolved
              else AtomicAddTyper(args, map[])
  {
  }

  /** Neither atomic typer ever looks at the type of the value operand, and
      a 1-D array's typing ignores the index type as well. */
  lemma AtomicIgnoresValueType(ary: Type, idx: Type, idx': Type, val: Type, val': Type)
    ensures AtomicAddTyper([ary, idx, val], map[]) == AtomicAddTyper([ary, idx, val'], map[])
    ensures AtomicMaxMinTyper([ary, idx, val], map[]) == AtomicMaxMinTyper([ary, idx, val'], map[])
    ensures ary.Array? && ary.ndim == 1 ==>
              AtomicAddTyper([ary, idx, val], map[]) == AtomicAddTyper([ary, idx', val'], map[])
  {
  }

  /** Typer of `cuda.atomic.compare_and_swap(ary, old, val)`: only 1-D arrays
      of `int32`, with `int32` old and new values and result. */
  function AtomicCasTyper(args: seq<Type>, kws: map<string, Type>): (r: Outcome<Signature>)
    requires kws == map[]
    ensures |args| != 3 ==> r == Raised(ArityMismatch(3, |args|))
    ensures |args| == 3 && !args[0].Array? ==> r == Raised(NotAnArray)
    ensures r.Raised? <==> |args| != 3 || !args[0].Array?
    ensures r.Resolved? <==> |args| == 3 && args[0].Array? && args[0].dtype == Int32 && args[0].ndim == 1
    ensures r.Resolved? ==> r.value == Signature(Int32, [args[0], Int32, Int32])
  {
    if |args| != 3 then Raised(ArityMismatch(3, |args|))
    else
      var ary := args[0];
      if !ary.Array? then Raised(NotAnArray)
      else
        var dty := ary.dtype;
        if dty == Int32 && ary.ndim == 1 then Resolved(Signature(dty, [ary, dty, dty]))
        else Unresolved
  }
}
