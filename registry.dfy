/** The registry of typing rules and the dispatcher that resolves a call to
    a CUDA intrinsic. */
module CudaRegistry {
  import opened CudaTypes
  import opened Resolution
  import opened CudaTables
  import opened CudaTypers
  import opened CudaAttributes

  /** How a rule resolves a call: by its fixed signature table, or by one of
      the custom typers. */
  datatype Strategy =
    | FixedTable(cases: seq<Signature>)
    | GridRule
    | ArrayDeclRule
    | ArrayLikeRule
    | SelpRule
    | AtomicAddRule
    | AtomicMaxMinRule
    | AtomicCasRule

  /** The rule registered for each intrinsic. Templates that subclass a
      common typer (`grid`/`gridsize`, `shared.array`/`local.array`,
      `atomic.max`/`atomic.min`) share its strategy, and every other custom
      typer serves one intrinsic; every fixed table has an entry. */
  function RuleOf(r: RuleId): (s: Strategy)
    ensures s.FixedTable? ==> |s.cases| > 0
    ensures s == GridRule <==> r in {Grid, Gridsize}
    ensures s == ArrayDeclRule <==> r in {SharedArray, LocalArray}
    ensures s == AtomicMaxMinRule <==> r in {AtomicMax, AtomicMin}
    ensures s == ArrayLikeRule <==> r == ConstArrayLike
    ensures s == SelpRule <==> r == Selp
    ensures s == AtomicAddRule <==> r == AtomicAdd
    ensures s == AtomicCasRule <==> r == AtomicCompareAndSwap
  {
    match r
    case Grid => GridRule
    case Gridsize => GridRule
    case SharedArray => ArrayDeclRule
    case LocalArray => ArrayDeclRule
    case ConstArrayLike => ArrayLikeRule
    case Syncthreads => FixedTable(SyncthreadsCases)
    case SyncthreadsCount => FixedTable(SyncthreadsCountCases)
    case SyncthreadsAnd => FixedTable(SyncthreadsAndCases)
    case SyncthreadsOr => FixedTable(SyncthreadsOrCases)
    case ThreadfenceDevice => FixedTable(ThreadfenceDeviceCases)
    case ThreadfenceBlock => FixedTable(ThreadfenceBlockCases)
    case ThreadfenceSystem => FixedTable(ThreadfenceSystemCases)
    case Syncwarp => FixedTable(SyncwarpCases)
    case ShflSyncIntrinsic => FixedTable(ShflSyncIntrinsicCases)
    case VoteSyncIntrinsic => FixedTable(VoteSyncIntrinsicCases)
    case MatchAnySync => FixedTable(MatchAnySyncCases)
    case MatchAllSync => FixedTable(MatchAllSyncCases)
    case Popc => FixedTable(PopcCases)
    case Fma => FixedTable(FmaCases)
    case Brev => FixedTable(BrevCases)
    case Clz => FixedTable(ClzCases)
    case Ffs => FixedTable(FfsCases)
    case Selp => SelpRule
    case AtomicAdd => AtomicAddRule
    case AtomicMax => AtomicMaxMinRule
    case AtomicMin => AtomicMaxMinRule
    case AtomicCompareAndSwap => AtomicCasRule
  }

  /** Runs strategy `s` on a call with positional argument types `args`
      and keyword arguments `kws`. A typer that gives back a bare type is
      given the call's own argument types as parameters. */
  function Apply(s: Strategy, args: seq<Type>, kws: map<string, Type>, parsers: Parsers)
    : (r: Outcome<Signature>)
    ensures kws != map[] ==> r == Raised(KeywordArguments)
    ensures r.Resolved? ==> |r.value.params| == |args|
    ensures s.FixedTable? && kws == map[] ==> !r.Raised?
    ensures s.FixedTable? && r.Resolved? ==> r.value in s.cases && r.value.params == args
    ensures r.Raised? && r.failure.LiteralOutOfDomain? ==> s == GridRule
    ensures s == GridRule ==> !r.Unresolved?
    // Without keyword arguments, a table rule answers what its matcher
    // selects and a typer's outcome is passed through unchanged.
    ensures kws == map[] && s.FixedTable? ==>
              (r.Resolved? <==> Match(s.cases, args).Some?)
              && (r.Resolved? ==> r.value == Match(s.cases, args).value)
    ensures kws == map[] && s == GridRule && |args| == 1 ==> r == GridTyper(args[0])
    ensures kws == map[] && s == ArrayDeclRule && |args| == 2 ==>
              (r.Resolved? <==> ArrayDeclTyper(args[0], args[1], parsers).Some?)
              && (r.Resolved? ==> r.value == Signature(ArrayDeclTyper(args[0], args[1], parsers).value, args))
              && !r.Raised?
    ensures kws == map[] && s == ArrayLikeRule && |args| == 1 ==>
              r == Resolved(Signature(args[0], args))
    ensures kws == map[] && s in {GridRule, ArrayLikeRule} && |args| != 1 ==>
              r == Raised(ArityMismatch(1, |args|))
    ensures kws == map[] && s == ArrayDeclRule && |args| != 2 ==>
              r == Raised(ArityMismatch(2, |args|))
    ensures kws == map[] && s == SelpRule ==> r == SelpTyper(args, kws)
    ensures kws == map[] && s == AtomicAddRule ==> r == AtomicAddTyper(args, kws)
    ensures kws == map[] && s == AtomicMaxMinRule ==> r == AtomicMaxMinTyper(args, kws)
    ensures kws == map[] && s == AtomicCasRule ==> r == AtomicCasTyper(args, kws)
  {
    if kws != map[] then Raised(KeywordArguments)
    else match s
      case FixedTable(cases) =>
        (match Match(cases, args)
         case None => Unresolved
         case Some(sig) => Resolved(sig))
      case GridRule =>
        if |args| != 1 then Raised(ArityMismatch(1, |args|)) else GridTyper(args[0])
      case ArrayDeclRule =>
        if |args| != 2 then Raised(ArityMismatch(2, |args|))
        else
          (match ArrayDeclTyper(args[0], args[1], parsers)
           case None => Unresolved
           case Some(t) => Resolved(Signature(t, args)))
      case ArrayLikeRule =>
        if |args| != 1 then Raised(ArityMismatch(1, |args|))
        else
          (match ConstArrayLikeTyper(args[0])
           case None => Unresolved
           case Some(t) => Resolved(Signature(t, args)))
      case SelpRule => SelpTyper(args, kws)
      case AtomicAddRule => AtomicAddTyper(args, kws)
      case AtomicMaxMinRule => AtomicMaxMinTyper(args, kws)
      case AtomicCasRule => AtomicCasTyper(args, kws)
  }

  /** Resolves a call to intrinsic `rule` by the rule registered for it. */
  function ResolveCall(rule: RuleId, args: seq<Type>, kws: map<string, Type>, parsers: Parsers)
    : (r: Outcome<Signature>)
    ensures kws != map[] ==> r == Raised(KeywordArguments)
    ensures RuleOf(rule).FixedTable? && r.Resolved? ==>
              r.value in RuleOf(rule).cases && r.value.params == args
    ensures r.Raised? && r.failure.LiteralOutOfDomain? ==> rule in {Grid, Gridsize}
    ensures kws == map[] && RuleOf(rule).FixedTable? ==>
              (r.Resolved? <==> Match(RuleOf(rule).cases, args).Some?)
              && (r.Resolved? ==> r.value == Match(RuleOf(rule).cases, args).value)
  {
    Apply(RuleOf(rule), args, kws, parsers)
  }

  /** Calling a fixed-table intrinsic with exactly the parameters of one of
      its entries resolves to that entry. */
  lemma TableCallResolves(rule: RuleId, sig: Signature, parsers: Parsers)
    requires RuleOf(rule).FixedTable? && sig in RuleOf(rule).cases
    ensures ResolveCall(rule, sig.params, map[], parsers) == Resolved(sig)
  {
    var cases := RuleOf(rule).cases;
    if |cases| > 1 {
      TablesUnambiguous();
      assert rule in {ShflSyncIntrinsic, MatchAnySync, MatchAllSync, Popc, Clz, Ffs, Fma, Brev};
    }
    assert DistinctParams(cases);
    MatchUnambiguous(cases, sig.params, sig);
  }

  /** `const.array_like` gives back exactly the type it is handed. */
  lemma ArrayLikeIsIdentity(t: Type, parsers: Parsers)
    ensures ResolveCall(ConstArrayLike, [t], map[], parsers) == Resolved(Signature(t, [t]))
  {
  }

  /** Templates sharing a typer resolve every call identically. */
  lemma SiblingRulesAgree(args: seq<Type>, kws: map<string, Type>, parsers: Parsers)
    ensures ResolveCall(Grid, args, kws, parsers) == ResolveCall(Gridsize, args, kws, parsers)
    ensures ResolveCall(SharedArray, args, kws, parsers) == ResolveCall(LocalArray, args, kws, parsers)
    ensures ResolveCall(AtomicMax, args, kws, parsers) == ResolveCall(AtomicMin, args, kws, parsers)
    ensures ResolveCall(Popc, args, kws, parsers) == ResolveCall(Clz, args, kws, parsers)
                                                 == ResolveCall(Ffs, args, kws, parsers)
  {
    assert RuleOf(Grid) == RuleOf(Gridsize);
    assert RuleOf(SharedArray) == RuleOf(LocalArray);
    assert RuleOf(AtomicMax) == RuleOf(AtomicMin);
    assert RuleOf(Popc) == RuleOf(Clz) == RuleOf(Ffs);
  }

  /** A call written as an attribute chain on module `cuda`, such as
      `cuda.atomic.add(...)`: the chain must name an intrinsic, and then the
      call is that intrinsic's, reached by its one path. Any other chain has
      no overload. */
  function ResolveCallAt(path: seq<string>, args: seq<Type>, kws: map<string, Type>, parsers: Parsers)
    : (r: Outcome<Signature>)
    ensures !r.Unresolved? ==>
              exists rule :: path == PathTo(rule) && r == ResolveCall(rule, args, kws, parsers)
    ensures path == [] ==> r == Unresolved
  {
    match ResolvePath(Module(Cuda), path)
    case Some(Function(rule)) =>
      PathsAreUnique(path, rule);
      ResolveCall(rule, args, kws, parsers)
    case _ => Unresolved
  }

  /** Calling an intrinsic through its attribute chain dispatches to the
      rule the registry holds for it. */
  lemma CallThroughAttributes(rule: RuleId, args: seq<Type>, kws: map<string, Type>, parsers: Parsers)
    ensures ResolveCallAt(PathTo(rule), args, kws, parsers) == ResolveCall(rule, args, kws, parsers)
  {
    EveryRuleReachable(rule);
  }

  /** `cuda.grid(3)` is a triple of `int32` coordinates, while `cuda.grid(4)`
      is a fatal error. */
  lemma GridThroughAttributes(parsers: Parsers)
    ensures ResolveCallAt(["grid"], [IntLiteral(3)], map[], parsers)
              == Resolved(Signature(UniTuple(Int32, 3), [Int32]))
    ensures ResolveCallAt(["grid"], [IntLiteral(4)], map[], parsers)
              == Raised(LiteralOutOfDomain(4))
  {
    CallThroughAttributes(Grid, [IntLiteral(3)], map[], parsers);
    CallThroughAttributes(Grid, [IntLiteral(4)], map[], parsers);
  }
}
