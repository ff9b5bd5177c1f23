# CUDA intrinsic typing, modelled in Dafny

This project models `numba/cuda/cudadecl.py`. The file is the table that the
CUDA back end's type inference consults for built-in CUDA calls. For a call to
an intrinsic such as `cuda.grid`, `cuda.shared.array`, `cuda.selp`,
`cuda.atomic.add` or one of the warp and bit-manipulation intrinsics, it takes
the static argument types and gives back the call's signature, or no
signature. It also resolves attributes of the `cuda` pseudo-module, of its
sub-namespaces (`shared`, `const`, `local`, `atomic`) and of `dim3` values.

Every piece is pure, so the model is made of datatypes, functions and lemmas:

- `types.dfy` holds two modules. `CudaTypes` is the type algebra: integers,
  floats, booleans, `none`, heterogeneous and homogeneous tuples, integer
  literals, arrays, pseudo-modules, function references and `dim3`. It also
  defines `Signature` and one `RuleId` per registered template. `Resolution`
  holds `Option` and `Outcome`. An `Outcome` is resolved, unresolved (the soft
  "no overload" answer) or raised (a fatal error).
- `tables.dfy` (`CudaTables`) holds the signature list of every
  `ConcreteTemplate`, an exact-equality first-match matcher, and lemmas that
  pin down what each table accepts.
- `typers.dfy` (`CudaTypers`) holds the custom typers: grid dimensions, array
  allocation, `array_like`, `selp`, `atomic.add`, `atomic.max`/`min` and
  `compare_and_swap`.
- `attributes.dfy` (`CudaAttributes`) holds the attribute templates. Each one
  is a map from a `resolve_<name>` method's `<name>` to the type that method
  returns.
- `registry.dfy` (`CudaRegistry`) maps each intrinsic to its typing strategy
  and defines `ResolveCall`, the dispatcher. It also resolves a call written
  as an attribute chain from `cuda`.

Modelling decisions:

- `parse_shape` and `parse_dtype` come from `numba.core.typing.npydecl` and
  are not part of this model. They enter as function-typed fields of
  `Parsers`, so every property of the array allocation typer holds whatever
  those parsers do.
- The fixed-table matcher lives in `numba.core.typing.templates`, which is not
  part of this model either. `CudaTables.Match` assumes exact type equality
  and first-match-wins order. Every multi-entry table is also proved free of
  duplicate parameter lists (`TablesUnambiguous`), so the order cannot change
  which entry a call selects.
- Fatal errors are `Raised`, never `Unresolved`. This covers the
  `ValueError` for a grid literal outside 1..3, and reading `literal_value`
  from a non-literal type. It covers reading `ndim`/`dtype` from a non-array
  type, and the tuple-unpacking error when the number of arguments is wrong.
- `assert not kws` in the four `AbstractTemplate` typers is their
  precondition `kws == map[]`. The dispatcher turns keyword arguments into
  `Raised(KeywordArguments)` before any typer runs.
- `types.intp` is fixed at 64-bit signed integer (`Intp`).
- Type equality is Dafny's structural equality on `Type`.

## Model

| member | source | states |
|---|---|---|
| `CudaTypes.Elements` | numba/cuda/cudadecl.py:52-53 | iterating a `Tuple` gives its items and iterating a `UniTuple(elem, n)` gives `n` copies of `elem` |
| `CudaTables.Match` | numba/cuda/cudadecl.py:86-248 | a call selects a table entry iff some entry's parameters equal the argument types; the selected entry is the first such entry and its parameters are the arguments |
| `CudaTables.MatchUnambiguous` | numba/cuda/cudadecl.py:134-248 | in a table without repeated parameter lists, a call selects `s` exactly when `s` is in the table and lists the call's argument types |
| `CudaTables.TablesUnambiguous` | numba/cuda/cudadecl.py:134-248 | no multi-entry table (shfl, match_any, match_all, popc, clz, ffs, fma, brev) repeats a parameter list |
| `CudaTables.BarrierTablesExact` | numba/cuda/cudadecl.py:86-131 | syncthreads and the three fences accept only the empty argument list and return `none`; syncthreads_count/and/or accept only `int32` and return `int32`; syncwarp accepts only `int32` and returns `none` |
| `CudaTables.ShflReturnsValueAndFlag` | numba/cuda/cudadecl.py:134-142 | every shfl entry has five parameters and returns `Tuple(T, b1)` where `T` is its third parameter, so every resolved shfl call returns its third argument's type paired with a boolean |
| `CudaTables.VoteTableExact` | numba/cuda/cudadecl.py:145-148 | vote_sync_intrinsic accepts exactly `(int32, int32, bool)` and returns `Tuple(int32, bool)` |
| `CudaTables.MatchAnyTableExact` | numba/cuda/cudadecl.py:151-159 | match_any_sync accepts exactly an `int32` mask with an `int32`, `int64`, `float32` or `float64` value and returns `int32` |
| `CudaTables.MatchAllTableExact` | numba/cuda/cudadecl.py:162-170 | match_all_sync accepts exactly the calls match_any_sync accepts and returns `Tuple(int32, bool)` |
| `CudaTables.BitCountTableExact` | numba/cuda/cudadecl.py:173-248 | popc, clz and ffs each have 8 entries and accept exactly one argument of one of the eight machine integer types, returning that same type |
| `CudaTables.FmaTableExact` | numba/cuda/cudadecl.py:191-201 | fma accepts exactly three `float32` or three `float64` and returns the operand type |
| `CudaTables.BrevTableExact` | numba/cuda/cudadecl.py:204-210 | brev accepts exactly one `uint32` or one `uint64` and returns it |
| `CudaTypers.GridTyper` | numba/cuda/cudadecl.py:19-30 | the parameter is always `int32`; literal 1 gives `int32` and literals 2 and 3 give `UniTuple(int32, v)`, so the result has `v` coordinates; any other literal is a fatal out-of-domain error and a non-literal a fatal error, never a soft failure |
| `CudaTypers.AllIntLiterals` | numba/cuda/cudadecl.py:53 | true iff every element type is an integer literal |
| `CudaTypers.ArrayDeclTyper` | numba/cuda/cudadecl.py:43-63 | a result exists iff the shape is an integer literal or a tuple of integer literals (a plain integer, a tuple with any non-literal, or any other type fails) and both parsers succeed; the result is the C-contiguous array of the parsed dtype and rank |
| `CudaTypers.ConstArrayLikeTyper` | numba/cuda/cudadecl.py:76-83 | the result is the argument's own type |
| `CudaTypers.SelpTypesAreWideNumbers` | numba/cuda/cudadecl.py:262-265 | the selp whitelist is exactly the 32- and 64-bit floats and the 16-, 32- and 64-bit integers of either signedness |
| `CudaTypers.SelpTyper` | numba/cuda/cudadecl.py:251-270 | resolves iff there are three arguments, the two branches have the same type and it is whitelisted; the signature is `(a; test, a, a)`; a wrong argument count is fatal |
| `CudaTypers.AtomicAddTyper` | numba/cuda/cudadecl.py:273-284 | resolves iff the first argument is an array of rank at least 1; returns the element type, takes the array and an element-typed value, and indexes by `intp` for rank 1 and by the supplied index type for higher ranks; it raises exactly for a wrong argument count or a non-array, so a 0-D array is the soft failure |
| `CudaTypers.AtomicMaxMinTyper` | numba/cuda/cudadecl.py:287-303 | resolves iff the first argument is an array of rank at least 1 whose element type is float64, float32, int32, uint32, int64 or uint64, and then with `add`'s signature; it raises exactly for a wrong argument count or a non-array, so an unsupported element type or a 0-D array is the soft failure |
| `CudaTypers.AtomicMaxMinIsGuardedAdd` | numba/cuda/cudadecl.py:287-303 | max/min give no result outside their element-type whitelist and otherwise exactly what add gives for the same arguments |
| `CudaTypers.AtomicIgnoresValueType` | numba/cuda/cudadecl.py:279-303 | neither atomic typer depends on the value operand's type, and a rank-1 add does not depend on the index type |
| `CudaTypers.AtomicCasTyper` | numba/cuda/cudadecl.py:316-326 | resolves iff the array is rank 1 with `int32` elements, and then the result and the old and new values are `int32`; it raises exactly for a wrong argument count or a non-array, so any other element type or rank is the soft failure |
| `CudaAttributes.ResolveAttribute` | numba/cuda/cudadecl.py:329-476 | only `dim3` values and the pseudo-modules have attributes, and every attribute of a `dim3` is `int32` |
| `CudaAttributes.UnknownNamesNotFound` | numba/cuda/cudadecl.py:329-340 | every type other than `dim3` and the pseudo-modules has no attribute of any name; `dim3` has no `w` and no upper-case `X` |
| `CudaAttributes.NamespaceLookupIsExact` | numba/cuda/cudadecl.py:343-381 | `shared.Array`, `const.arrayLike` and `atomic.Add` are not found: lookup in the nested namespaces is case-sensitive |
| `CudaAttributes.CudaLookupIsCaseSensitive` | numba/cuda/cudadecl.py:384-404 | `cuda.Grid` and `cuda.threadidx` are not found: only the exact spellings `grid` and `threadIdx` resolve |
| `CudaAttributes.CudaFunctionAtHome` | numba/cuda/cudadecl.py:384-476 | a function type found on `cuda` is the intrinsic whose home is that name of `cuda` |
| `CudaAttributes.AtomicFunctionAtHome` | numba/cuda/cudadecl.py:367-381 | a function type found on `cuda.atomic` is the intrinsic whose home is that name of `cuda.atomic` |
| `CudaAttributes.CudaGridAndSelectFound` | numba/cuda/cudadecl.py:388-467 | `cuda.grid`, `cuda.gridsize` and `cuda.selp` resolve to their templates' function types |
| `CudaAttributes.CudaBitIntrinsicsFound` | numba/cuda/cudadecl.py:415-428 | `cuda.popc`, `brev`, `clz`, `ffs` and `fma` resolve to their templates' function types |
| `CudaAttributes.CudaBarrierIntrinsicsFound` | numba/cuda/cudadecl.py:430-452 | the syncthreads, threadfence and syncwarp names of `cuda` resolve to their templates' function types |
| `CudaAttributes.CudaWarpIntrinsicsFound` | numba/cuda/cudadecl.py:454-464 | the shfl, vote and match names of `cuda` resolve to their templates' function types |
| `CudaAttributes.NamespacedIntrinsicsFound` | numba/cuda/cudadecl.py:343-381 | `shared.array`, `local.array`, `const.array_like` and the four `atomic` names resolve to their templates' function types |
| `CudaAttributes.FunctionAttributeAtHome` | numba/cuda/cudadecl.py:343-476 | every intrinsic's function type is the attribute at its home namespace and name |
| `CudaAttributes.FunctionAttributeHome` | numba/cuda/cudadecl.py:343-476 | an attribute lookup gives `Function(r)` iff the namespace and name are `r`'s home: each intrinsic is reachable under exactly one name |
| `CudaAttributes.SubNamespacesFound` | numba/cuda/cudadecl.py:412-476 | `cuda.shared`, `cuda.const`, `cuda.local` and `cuda.atomic` resolve to the nested pseudo-modules |
| `CudaAttributes.CudaModuleAtName` | numba/cuda/cudadecl.py:412-476 | a pseudo-module found on `cuda` is one of the four nested namespaces, found under its own name |
| `CudaAttributes.Dim3PathsEndInValues` | numba/cuda/cudadecl.py:329-340 | no attribute chain from a `dim3` value reaches a function |
| `CudaAttributes.NamespacePathIsHome` | numba/cuda/cudadecl.py:343-381 | inside a nested namespace an intrinsic is reached only one step down, by the name of its home |
| `CudaAttributes.PathsAreUnique` | numba/cuda/cudadecl.py:343-476 | the only attribute chain from `cuda` that reaches an intrinsic is that intrinsic's own path, the converse of `EveryRuleReachable` |
| `CudaAttributes.EveryRuleReachable` | numba/cuda/cudadecl.py:384-476 | every registered intrinsic is reached from `cuda` by its attribute chain, through the nested namespace where it lives |
| `CudaAttributes.ThreadIndexComponentsAreInt32` | numba/cuda/cudadecl.py:329-403 | `x`, `y` and `z` of `threadIdx`, `blockIdx`, `blockDim` and `gridDim` are `int32` |
| `CudaRegistry.RuleOf` | numba/cuda/cudadecl.py:33-326 | grid/gridsize, shared.array/local.array and atomic.max/min are exactly the intrinsics sharing a typer; each other custom typer serves exactly one intrinsic; every fixed table has an entry |
| `CudaRegistry.Apply` | numba/cuda/cudadecl.py:19-326 | keyword arguments are fatal; without them a table rule resolves iff its matcher selects an entry, to that entry, and never raises; a typer's outcome is passed through, with a bare result type given the call's arguments as parameters, and a wrong argument count is fatal; a resolved signature has one parameter per argument; only the grid typer raises the out-of-domain error, and it never answers softly |
| `CudaRegistry.ResolveCall` | numba/cuda/cudadecl.py:33-326 | keyword arguments are fatal for every intrinsic; without them a fixed-table intrinsic resolves iff its table selects an entry, to that entry; only `grid` and `gridsize` raise the out-of-domain error |
| `CudaRegistry.TableCallResolves` | numba/cuda/cudadecl.py:86-248 | calling a fixed-table intrinsic with exactly one entry's parameters resolves to that entry |
| `CudaRegistry.ArrayLikeIsIdentity` | numba/cuda/cudadecl.py:76-83 | `const.array_like(t)` resolves to `(t; t)` for every type `t` |
| `CudaRegistry.SiblingRulesAgree` | numba/cuda/cudadecl.py:33-313 | grid and gridsize, shared.array and local.array, atomic.max and atomic.min, and popc, clz and ffs resolve every call identically |
| `CudaRegistry.ResolveCallAt` | numba/cuda/cudadecl.py:384-479 | a call through an attribute chain from `cuda` has an outcome other than the soft failure only when the chain is some intrinsic's own path, and then it is that intrinsic's outcome; the empty chain is the soft failure |
| `CudaRegistry.CallThroughAttributes` | numba/cuda/cudadecl.py:384-476 | calling an intrinsic through its attribute chain from `cuda` gives exactly what its registered rule gives |
| `CudaRegistry.GridThroughAttributes` | numba/cuda/cudadecl.py:19-40 | `cuda.grid(3)` is `UniTuple(int32, 3)` taking `int32`, and `cuda.grid(4)` raises the out-of-domain error |

## Left out

- Registry plumbing (`Registry()`, `register`, `register_attr`, `register_global`, `register_number_classes`, lines 11-16 and 479) is import-time mutation of framework state. It is replaced by the function `CudaRegistry.RuleOf` and the attribute maps. `ResolvePath` starts from `Module(Cuda)`, which stands for the global registered at line 479.
- The template base classes (`ConcreteTemplate`, `AbstractTemplate`, `CallableTemplate`, `AttributeTemplate`) live in `numba.core.typing.templates`, which is not part of this model. The matcher does not cast, convert or unwrap literals. A literal argument to a fixed-table intrinsic (an `IntLiteral` to `popc`, say) therefore matches nothing here.
- How a `CallableTemplate` binds its arguments is also in that module. The model binds positionally, raises `ArityMismatch` on a wrong count, and wraps a bare result type as a signature over the call's own argument types.
- Keyword arguments are refused for every intrinsic. This is a deliberate design policy, not something `cudadecl.py` forces. Only the four `AbstractTemplate` typers (`assert not kws` at lines 256, 278, 289 and 321) refuse them in the source. The `CallableTemplate` typers are plain functions with named parameters (`typer(ndim)` at line 21, `typer(shape, dtype)` at line 45, `typer(ndarray)` at line 81). So a call such as `cuda.shared.array(shape=..., dtype=...)` fits the source's own typer, but this model answers `Raised(KeywordArguments)`. The fixed-table templates' handling of keywords is in the templates module.
- `parse_shape` and `parse_dtype` are not part of this model. Their results are parameters (`CudaTypers.Parsers`).
- Only `Array` types have `ndim` and `dtype` here. Other buffer-like types that carry those fields in the framework raise `NotAnArray`.
- Literal types other than integer literals are not modelled (for example, a boolean literal passed to `cuda.grid` compares equal to 1 in the source). Neither are named tuples.
- The framework canonicalises a `Tuple` of identical elements to a `UniTuple`. Here the two are distinct values, and the tables only ever build heterogeneous `Tuple(T, b1)`.
- `types.intp` is platform-dependent in the source and fixed at 64 bits here.
- `dim3` (line 7) is an opaque type constructor.
- What the intrinsics do at run time (barriers, fences, warp shuffles, atomic memory effects) is outside this file. Only their type contracts are modelled.
