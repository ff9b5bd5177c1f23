/** Attribute resolution on `dim3` values and on the `cuda` pseudo-modules.
    Each attribute template is the table of its `resolve_<name>` methods,
    keyed by `<name>`; a name without such a method is not found. */
module CudaAttributes {
  import opened CudaTypes
  import opened Resolution

  /** Attributes of a `dim3` value. */
  const Dim3Members: map<string, Type> := map["x" := Int32, "y" := Int32, "z" := Int32]

  /** Attributes of `cuda.shared`. */
  const SharedMembers: map<string, Type> := map["array" := Function(SharedArray)]

  /** Attributes of `cuda.const`. */
  const ConstMembers: map<string, Type> := map["array_like" := Function(ConstArrayLike)]

  /** Attributes of `cuda.local`. */
  const LocalMembers: map<string, Type> := map["array" := Function(LocalArray)]

  /** Attributes of `cuda.atomic`. */
  const AtomicMembers: map<string, Type> := map[
    "add" := Function(AtomicAdd),
    "max" := Function(AtomicMax),
    "min" := Function(AtomicMin),
    "compare_and_swap" := Function(AtomicCompareAndSwap)
  ]

  /** Attributes of the top-level `cuda` module. */
  const CudaMembers: map<string, Type> := map[
    "grid" := Function(Grid),
    "gridsize" := Function(Gridsize),
    "threadIdx" := Dim3,
    "blockIdx" := Dim3,
    "blockDim" := Dim3,
    "gridDim" := Dim3,
    "warpsize" := Int32,
    "laneid" := Int32,
    "shared" := Module(Shared),
    "popc" := Function(Popc),
    "brev" := Function(Brev),
    "clz" := Function(Clz),
    "ffs" := Function(Ffs),
    "fma" := Function(Fma),
    "syncthreads" := Function(Syncthreads),
    "syncthreads_count" := Function(SyncthreadsCount),
    "syncthreads_and" := Function(SyncthreadsAnd),
    "syncthreads_or" := Function(SyncthreadsOr),
    "threadfence" := Function(ThreadfenceDevice),
    "threadfence_block" := Function(ThreadfenceBlock),
    "threadfence_system" := Function(ThreadfenceSystem),
    "syncwarp" := Function(Syncwarp),
    "shfl_sync_intrinsic" := Function(ShflSyncIntrinsic),
    "vote_sync_intrinsic" := Function(VoteSyncIntrinsic),
    "match_any_sync" := Function(MatchAnySync),
    "match_all_sync" := Function(MatchAllSync),
    "selp" := Function(Selp),
    "atomic" := Module(Atomic),
    "const" := Module(Const),
    "local" := Module(Local)
  ]

  /** The attribute template registered for values of type `t`: `dim3` and
      the five pseudo-modules have one, every other type has none. */
  function Members(t: Type): map<string, Type> {
    match t
    case Dim3 => Dim3Members
    case Module(m) =>
      (match m
       case Cuda => CudaMembers
       case Shared => SharedMembers
       case Const => ConstMembers
       case Local => LocalMembers
       case Atomic => AtomicMembers)
    case _ => map[]
  }

  /** Attribute `name` of a value of type `t`: exact, case-sensitive lookup.
      Only `dim3` values and the pseudo-modules have attributes, and every
      attribute of a `dim3` is an `int32`. */
  function ResolveAttribute(t: Type, name: string): (r: Option<Type>)
    ensures r.Some? ==> t.Dim3? || t.Module?
    ensures t.Dim3? && r.Some? ==> r.value == Int32
  {
    var members := Members(t);
    if name in members then Some(members[name]) else None
  }

  /** A type without an attribute template has no attributes, and a `dim3`
      has only its three lower-case components: nothing is synthesized for a
      missing name. */
  lemma UnknownNamesNotFound(t: Type, name: string)
    ensures !(t.Dim3? || t.Module?) ==> ResolveAttribute(t, name) == None
    ensures ResolveAttribute(Dim3, "w") == None
    ensures ResolveAttribute(Dim3, "X") == None
  {
  }

  /** Lookup in the nested namespaces is exact and case-sensitive. */
  lemma NamespaceLookupIsExact()
    ensures ResolveAttribute(Module(Shared), "Array") == None
    ensures ResolveAttribute(Module(Const), "arrayLike") == None
    ensures ResolveAttribute(Module(Atomic), "Add") == None
  {
  }

  /** Names on module `cuda` are case-sensitive: `grid` and `threadIdx` are
      found under their exact spelling only. */
  lemma CudaLookupIsCaseSensitive()
    ensures ResolveAttribute(Module(Cuda), "Grid") == None
    ensures ResolveAttribute(Module(Cuda), "threadidx") == None
  {
  }

  /** The one namespace and name through which each intrinsic is reached. */
  function Home(r: RuleId): (ModuleId, string) {
    match r
    case Grid => (Cuda, "grid")
    case Gridsize => (Cuda, "gridsize")
    case SharedArray => (Shared, "array")
    case LocalArray => (Local, "array")
    case ConstArrayLike => (Const, "array_like")
    case Syncthreads => (Cuda, "syncthreads")
    case SyncthreadsCount => (Cuda, "syncthreads_count")
    case SyncthreadsAnd => (Cuda, "syncthreads_and")
    case SyncthreadsOr => (Cuda, "syncthreads_or")
    case ThreadfenceDevice => (Cuda, "threadfence")
    case ThreadfenceBlock => (Cuda, "threadfence_block")
    case ThreadfenceSystem => (Cuda, "threadfence_system")
    case Syncwarp => (Cuda, "syncwarp")
    case ShflSyncIntrinsic => (Cuda, "shfl_sync_intrinsic")
    case VoteSyncIntrinsic => (Cuda, "vote_sync_intrinsic")
    case MatchAnySync => (Cuda, "match_any_sync")
    case MatchAllSync => (Cuda, "match_all_sync")
    case Popc => (Cuda, "popc")
    case Fma => (Cuda, "fma")
    case Brev => (Cuda, "brev")
    case Clz => (Cuda, "clz")
    case Ffs => (Cuda, "ffs")
    case Selp => (Cuda, "selp")
    case AtomicAdd => (Atomic, "add")
    case AtomicMax => (Atomic, "max")
    case AtomicMin => (Atomic, "min")
    case AtomicCompareAndSwap => (Atomic, "compare_and_swap")
  }

  /** A function type found on module `cuda` is found at its home there. */
  lemma CudaFunctionAtHome(name: string, r: RuleId)
    requires name in CudaMembers && CudaMembers[name] == Function(r)
    ensures Home(r) == (Cuda, name)
  {
  }

  /** A function type found on `cuda.atomic` is found at its home there. */
  lemma AtomicFunctionAtHome(name: string, r: RuleId)
    requires name in AtomicMembers && AtomicMembers[name] == Function(r)
    ensures Home(r) == (Atomic, name)
  {
  }

  /** The grid queries and `selp` are found at their homes on module `cuda`. */
  lemma CudaGridAndSelectFound(r: RuleId)
    requires r in {Grid, Gridsize, Selp}
    ensures Home(r).0 == Cuda && Home(r).1 in CudaMembers && CudaMembers[Home(r).1] == Function(r)
  {
  }

  /** The bit-manipulation intrinsics are found at their homes on module `cuda`. */
  lemma CudaBitIntrinsicsFound(r: RuleId)
    requires r in {Popc, Fma, Brev, Clz, Ffs}
    ensures Home(r).0 == Cuda && Home(r).1 in CudaMembers && CudaMembers[Home(r).1] == Function(r)
  {
  }

  /** The barrier and fence intrinsics are found at their homes on module
      `cuda`. */
  lemma CudaBarrierIntrinsicsFound(r: RuleId)
    requires r in {Syncthreads, SyncthreadsCount, SyncthreadsAnd, SyncthreadsOr,
                   ThreadfenceDevice, ThreadfenceBlock, ThreadfenceSystem, Syncwarp}
    ensures Home(r).0 == Cuda && Home(r).1 in CudaMembers && CudaMembers[Home(r).1] == Function(r)
  {
  }

  /** The warp-level intrinsics are found at their homes on module `cuda`. */
  lemma CudaWarpIntrinsicsFound(r: RuleId)
    requires r in {ShflSyncIntrinsic, VoteSyncIntrinsic, MatchAnySync, MatchAllSync}
    ensures Home(r).0 == Cuda && Home(r).1 in CudaMembers && CudaMembers[Home(r).1] == Function(r)
  {
  }

  /** The intrinsics of the sub-namespaces are found at their homes there. */
  lemma NamespacedIntrinsicsFound()
    ensures ResolveAttribute(Module(Shared), "array") == Some(Function(SharedArray))
    ensures ResolveAttribute(Module(Local), "array") == Some(Function(LocalArray))
    ensures ResolveAttribute(Module(Const), "array_like") == Some(Function(ConstArrayLike))
    ensures ResolveAttribute(Module(Atomic), "add") == Some(Function(AtomicAdd))
    ensures ResolveAttribute(Module(Atomic), "max") == Some(Function(AtomicMax))
    ensures ResolveAttribute(Module(Atomic), "min") == Some(Function(AtomicMin))
    ensures ResolveAttribute(Module(Atomic), "compare_and_swap") == Some(Function(AtomicCompareAndSwap))
  {
  }

  /** Each intrinsic's function type is the attribute at its home. */
  lemma FunctionAttributeAtHome(r: RuleId)
    ensures ResolveAttribute(Module(Home(r).0), Home(r).1) == Some(Function(r))
  {
    match r
    case Grid | Gridsize | Selp => CudaGridAndSelectFound(r);
    case Popc | Fma | Brev | Clz | Ffs => CudaBitIntrinsicsFound(r);
    case Syncthreads | SyncthreadsCount | SyncthreadsAnd | SyncthreadsOr
       | ThreadfenceDevice | ThreadfenceBlock | ThreadfenceSystem | Syncwarp =>
      CudaBarrierIntrinsicsFound(r);
    case ShflSyncIntrinsic | VoteSyncIntrinsic | MatchAnySync | MatchAllSync =>
      CudaWarpIntrinsicsFound(r);
    case SharedArray | LocalArray | ConstArrayLike
       | AtomicAdd | AtomicMax | AtomicMin | AtomicCompareAndSwap =>
      NamespacedIntrinsicsFound();
  }

  /** Every intrinsic is exposed under exactly one namespace and name: its
      function type is the attribute at its home and nowhere else. */
  lemma FunctionAttributeHome(m: ModuleId, name: string, r: RuleId)
    ensures ResolveAttribute(Module(m), name) == Some(Function(r)) <==> (m, name) == Home(r)
  {
    if ResolveAttribute(Module(m), name) == Some(Function(r)) {
      if m == Cuda { CudaFunctionAtHome(name, r); }
      if m == Atomic { AtomicFunctionAtHome(name, r); }
    }
    FunctionAttributeAtHome(r);
  }

  /** Resolves a chain of attribute names, as in `cuda.atomic.add`. */
  function ResolvePath(t: Type, path: seq<string>): Option<Type>
    decreases |path|
  {
    if path == [] then Some(t)
    else match ResolveAttribute(t, path[0])
      case None => None
      case Some(u) => ResolvePath(u, path[1..])
  }

  /** The attribute of module `cuda` that names pseudo-module `m`. */
  function NamespaceName(m: ModuleId): string {
    match m
    case Cuda => "cuda"
    case Shared => "shared"
    case Const => "const"
    case Local => "local"
    case Atomic => "atomic"
  }

  /** The attribute-name chain that reaches an intrinsic from module `cuda`. */
  function PathTo(r: RuleId): seq<string> {
    var (m, name) := Home(r);
    if m == Cuda then [name] else [NamespaceName(m), name]
  }

  /** Every registered intrinsic is reachable from module `cuda`, through
      the nested namespace where it lives. */
  lemma EveryRuleReachable(r: RuleId)
    ensures ResolvePath(Module(Cuda), PathTo(r)) == Some(Function(r))
  {
    var (m, name) := Home(r);
    FunctionAttributeAtHome(r);
    var home := Function(r);
    assert ResolvePath(home, []) == Some(home);
    assert ResolvePath(Module(m), [name]) == ResolvePath(home, []);
    if m != Cuda {
      SubNamespacesFound();
      assert PathTo(r)[1..] == [name];
    }
  }

  /** A pseudo-module found on module `cuda` is one of the four nested
      namespaces, under its own name. */
  lemma CudaModuleAtName(name: string, m: ModuleId)
    requires name in CudaMembers && CudaMembers[name] == Module(m)
    ensures m != Cuda && name == NamespaceName(m)
  {
  }

  /** A path that leaves a type without attributes resolves to nothing. */
  lemma NoAttributesBeyond(t: Type, path: seq<string>)
    requires Members(t) == map[] && path != []
    ensures ResolvePath(t, path) == None
  {
  }

  /** No path from a `dim3` value reaches a function. */
  lemma Dim3PathsEndInValues(path: seq<string>)
    ensures ResolvePath(Dim3, path).Some? ==> !ResolvePath(Dim3, path).value.Function?
  {
    if path != [] && ResolveAttribute(Dim3, path[0]).Some? {
      assert ResolveAttribute(Dim3, path[0]).value == Int32;
      if |path| > 1 { NoAttributesBeyond(Int32, path[1..]); }
    }
  }

  /** Inside a nested namespace, an intrinsic is reached only by its own
      name, one step down. */
  lemma NamespacePathIsHome(m: ModuleId, path: seq<string>, r: RuleId)
    requires m != Cuda
    requires ResolvePath(Module(m), path) == Some(Function(r))
    ensures path == [Home(r).1] && Home(r).0 == m
  {
    assert path != [];
    var v := ResolveAttribute(Module(m), path[0]).value;
    assert v.Function?;
    FunctionAttributeHome(m, path[0], r);
  }

  /** The converse of `EveryRuleReachable`: the only attribute chain from
      module `cuda` that reaches an intrinsic is its own. */
  lemma PathsAreUnique(path: seq<string>, r: RuleId)
    requires ResolvePath(Module(Cuda), path) == Some(Function(r))
    ensures path == PathTo(r)
  {
    assert path != [];
    var u := ResolveAttribute(Module(Cuda), path[0]).value;
    var rest := path[1..];
    assert ResolvePath(u, rest) == Some(Function(r));
    if rest == [] {
      FunctionAttributeHome(Cuda, path[0], r);
      assert path == [path[0]];
    } else if u.Module? {
      CudaModuleAtName(path[0], u.id);
      NamespacePathIsHome(u.id, rest, r);
      assert path == [path[0]] + rest;
    } else if u.Dim3? {
      Dim3PathsEndInValues(rest);
    } else {
      NoAttributesBeyond(u, rest);
    }
  }

  /** The sub-namespaces of module `cuda`. */
  lemma SubNamespacesFound()
    ensures ResolveAttribute(Module(Cuda), "shared") == Some(Module(Shared))
    ensures ResolveAttribute(Module(Cuda), "const") == Some(Module(Const))
    ensures ResolveAttribute(Module(Cuda), "local") == Some(Module(Local))
    ensures ResolveAttribute(Module(Cuda), "atomic") == Some(Module(Atomic))
  {
  }

  /** `cuda.threadIdx.x` and its kin are `int32`. */
  lemma ThreadIndexComponentsAreInt32(index: string, component: string)
    requires index in {"threadIdx", "blockIdx", "blockDim", "gridDim"}
    requires component in {"x", "y", "z"}
    ensures ResolvePath(Module(Cuda), [index, component]) == Some(Int32)
  {
    assert ResolveAttribute(Module(Cuda), index) == Some(Dim3);
    assert ResolveAttribute(Dim3, component) == Some(Int32);
    assert ResolvePath(Dim3, [component]) == ResolvePath(Int32, []);
    assert [index, component][1..] == [component];
  }
}
