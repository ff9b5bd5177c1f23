/** The fixed signature tables of the `ConcreteTemplate` rules and the
    matcher that selects an entry for a call. */
module CudaTables {
  import opened CudaTypes
  import opened Resolution

  /** Index of the first entry whose parameter list equals `args` exactly. */
  function FirstMatchIndex(cases: seq<Signature>, args: seq<Type>): (r: Option<nat>)
    ensures r.Some? ==> r.value < |cases| && cases[r.value].params == args
    ensures r.Some? ==> forall j :: 0 <= j < r.value ==> cases[j].params != args
    ensures r.None? ==> forall j :: 0 <= j < |cases| ==> cases[j].params != args
  {
    if cases == [] then None
    else if cases[0].params == args then Some(0)
    else match FirstMatchIndex(cases[1..], args)
      case None => None
      case Some(k) => Some(k + 1)
  }

  /** The entry of `cases` selected for a call with argument types `args`:
      declaration order decides, and a call that matches no entry has none. */
  function Match(cases: seq<Signature>, args: seq<Type>): (r: Option<Signature>)
    ensures r.Some? <==> exists i :: 0 <= i < |cases| && cases[i].params == args
    ensures r.Some? ==> r.value in cases && r.value.params == args
    ensures r.Some? ==> exists i :: 0 <= i < |cases| && cases[i] == r.value
                           && forall j :: 0 <= j < i ==> cases[j].params != args
  {
    match FirstMatchIndex(cases, args)
    case None => None
    case Some(i) => Some(cases[i])
  }

  /** No two entries of a table share a parameter list, so the order of the
      entries cannot change which one a call selects. */
  predicate DistinctParams(cases: seq<Signature>) {
    forall i, j :: 0 <= i < j < |cases| ==> cases[i].params != cases[j].params
  }

  /** In a table without duplicate parameter lists, a call selects an entry
      exactly when that entry lists the call's argument types. */
  lemma MatchUnambiguous(cases: seq<Signature>, args: seq<Type>, s: Signature)
    requires DistinctParams(cases)
    ensures Match(cases, args) == Some(s) <==> s in cases && s.params == args
  {
    if s in cases && s.params == args {
      var k :| 0 <= k < |cases| && cases[k] == s;
      var r := Match(cases, args);
      var i :| 0 <= i < |cases| && cases[i] == r.value
               && forall j :: 0 <= j < i ==> cases[j].params != args;
      assert i == k;
    }
  }

  const SyncthreadsCases: seq<Signature> := [Signature(NoneT, [])]
  const SyncthreadsCountCases: seq<Signature> := [Signature(Int32, [Int32])]
  const SyncthreadsAndCases: seq<Signature> := [Signature(Int32, [Int32])]
  const SyncthreadsOrCases: seq<Signature> := [Signature(Int32, [Int32])]
  const ThreadfenceDeviceCases: seq<Signature> := [Signature(NoneT, [])]
  const ThreadfenceBlockCases: seq<Signature> := [Signature(NoneT, [])]
  const ThreadfenceSystemCases: seq<Signature> := [Signature(NoneT, [])]
  const SyncwarpCases: seq<Signature> := [Signature(NoneT, [Int32])]

  const ShflSyncIntrinsicCases: seq<Signature> := [
    Signature(Tuple([Int32, Bool]), [Int32, Int32, Int32, Int32, Int32]),
    Signature(Tuple([Int64, Bool]), [Int32, Int32, Int64, Int32, Int32]),
    Signature(Tuple([Float32, Bool]), [Int32, Int32, Float32, Int32, Int32]),
    Signature(Tuple([Float64, Bool]), [Int32, Int32, Float64, Int32, Int32])
  ]

  const VoteSyncIntrinsicCases: seq<Signature> :=
    [Signature(Tuple([Int32, Bool]), [Int32, Int32, Bool])]

  const MatchAnySyncCases: seq<Signature> := [
    Signature(Int32, [Int32, Int32]),
    Signature(Int32, [Int32, Int64]),
    Signature(Int32, [Int32, Float32]),
    Signature(Int32, [Int32, Float64])
  ]

  const MatchAllSyncCases: seq<Signature> := [
    Signature(Tuple([Int32, Bool]), [Int32, Int32]),
    Signature(Tuple([Int32, Bool]), [Int32, Int64]),
    Signature(Tuple([Int32, Bool]), [Int32, Float32]),
    Signature(Tuple([Int32, Bool]), [Int32, Float64])
  ]

  const PopcCases: seq<Signature> := [
    Signature(Int8, [Int8]), Signature(Int16, [Int16]),
    Signature(Int32, [Int32]), Signature(Int64, [Int64]),
    Signature(UInt8, [UInt8]), Signature(UInt16, [UInt16]),
    Signature(UInt32, [UInt32]), Signature(UInt64, [UInt64])
  ]

  const FmaCases: seq<Signature> := [
    Signature(Float32, [Float32, Float32, Float32]),
    Signature(Float64, [Float64, Float64, Float64])
  ]

  const BrevCases: seq<Signature> := [
    Signature(UInt32, [UInt32]),
    Signature(UInt64, [UInt64])
  ]

  const ClzCases: seq<Signature> := [
    Signature(Int8, [Int8]), Signature(Int16, [Int16]),
    Signature(Int32, [Int32]), Signature(Int64, [Int64]),
    Signature(UInt8, [UInt8]), Signature(UInt16, [UInt16]),
    Signature(UInt32, [UInt32]), Signature(UInt64, [UInt64])
  ]

  const FfsCases: seq<Signature> := [
    Signature(Int8, [Int8]), Signature(Int16, [Int16]),
    Signature(Int32, [Int32]), Signature(Int64, [Int64]),
    Signature(UInt8, [UInt8]), Signature(UInt16, [UInt16]),
    Signature(UInt32, [UInt32]), Signature(UInt64, [UInt64])
  ]

  /** An integer bit-manipulation table (popc, clz, ffs) accepts exactly one
      argument of one of the eight machine integer types and returns that
      same type. */
  lemma BitCountTableExact(cases: seq<Signature>, args: seq<Type>)
    requires cases == PopcCases || cases == ClzCases || cases == FfsCases
    ensures |cases| == 8
    ensures Match(cases, args).Some? <==> |args| == 1 && IsMachineInteger(args[0])
    ensures Match(cases, args).Some? ==> Match(cases, args).value == Signature(args[0], args)
  {
    var r := Match(cases, args);
    if |args| == 1 && IsMachineInteger(args[0]) {
      var t := args[0];
      assert Signature(t, [t]) in cases;
      assert args == [t];
    }
  }

  /** `brev` accepts only a single `uint32` or `uint64` and returns it. */
  lemma BrevTableExact(args: seq<Type>)
    ensures Match(BrevCases, args).Some? <==> args == [UInt32] || args == [UInt64]
    ensures Match(BrevCases, args).Some? ==> Match(BrevCases, args).value == Signature(args[0], args)
  {
    if args == [UInt32] {
      assert BrevCases[0].params == args;
    } else if args == [UInt64] {
      assert BrevCases[1].params == args;
    }
  }

  /** `fma` accepts only three `float32` or three `float64` operands and
      returns the operand type. */
  lemma FmaTableExact(args: seq<Type>)
    ensures Match(FmaCases, args).Some? <==>
              args == [Float32, Float32, Float32] || args == [Float64, Float64, Float64]
    ensures Match(FmaCases, args).Some? ==> Match(FmaCases, args).value == Signature(args[0], args)
  {
    if args == [Float32, Float32, Float32] {
      assert FmaCases[0].params == args;
    } else if args == [Float64, Float64, Float64] {
      assert FmaCases[1].params == args;
    }
  }

  /** Every warp-shuffle entry takes five parameters and returns the pair of
      its third parameter's type and a boolean; so does every resolved call. */
  lemma ShflReturnsValueAndFlag(args: seq<Type>)
    ensures forall s :: s in ShflSyncIntrinsicCases ==>
              |s.params| == 5 && s.ret == Tuple([s.params[2], Bool])
    ensures Match(ShflSyncIntrinsicCases, args).Some? ==>
              |args| == 5 && Match(ShflSyncIntrinsicCases, args).value.ret == Tuple([args[2], Bool])
  {
  }

  /** Every table lists each parameter list at most once. */
  lemma TablesUnambiguous()
    ensures DistinctParams(ShflSyncIntrinsicCases)
    ensures DistinctParams(MatchAnySyncCases)
    ensures DistinctParams(MatchAllSyncCases)
    ensures DistinctParams(PopcCases) && DistinctParams(ClzCases) && DistinctParams(FfsCases)
    ensures DistinctParams(FmaCases) && DistinctParams(BrevCases)
  {
  }

  /** The barrier and fence intrinsics take no argument and return nothing;
      the counting barriers take and return one `int32`; `syncwarp` takes an
      `int32` mask and returns nothing. */
  lemma BarrierTablesExact(args: seq<Type>)
    ensures Match(SyncthreadsCases, args) == if args == [] then Some(Signature(NoneT, [])) else None
    ensures Match(ThreadfenceDeviceCases, args) == Match(SyncthreadsCases, args)
    ensures Match(ThreadfenceBlockCases, args) == Match(SyncthreadsCases, args)
    ensures Match(ThreadfenceSystemCases, args) == Match(SyncthreadsCases, args)
    ensures Match(SyncthreadsCountCases, args) == if args == [Int32] then Some(Signature(Int32, [Int32])) else None
    ensures Match(SyncthreadsAndCases, args) == Match(SyncthreadsCountCases, args)
    ensures Match(SyncthreadsOrCases, args) == Match(SyncthreadsCountCases, args)
    ensures Match(SyncwarpCases, args) == if args == [Int32] then Some(Signature(NoneT, [Int32])) else None
  {
    if args == [] {
      assert SyncthreadsCases[0].params == args;
    } else if args == [Int32] {
      assert SyncthreadsCountCases[0].params == args;
      assert SyncwarpCases[0].params == args;
    }
  }

  /** `match_any_sync` takes an `int32` mask and a value of one of the four
      32- and 64-bit numeric types, and returns the `int32` mask of lanes
      holding the same value. */
  lemma MatchAnyTableExact(args: seq<Type>)
    ensures Match(MatchAnySyncCases, args).Some? <==>
              |args| == 2 && args[0] == Int32 && args[1] in {Int32, Int64, Float32, Float64}
    ensures Match(MatchAnySyncCases, args).Some? ==> Match(MatchAnySyncCases, args).value == Signature(Int32, args)
  {
    if |args| == 2 && args[0] == Int32 && args[1] in {Int32, Int64, Float32, Float64} {
      var v := args[1];
      assert args == [Int32, v];
      assert Signature(Int32, args) in MatchAnySyncCases;
    }
  }

  /** `match_all_sync` accepts the same calls as `match_any_sync` and returns
      the mask together with a boolean. */
  lemma MatchAllTableExact(args: seq<Type>)
    ensures Match(MatchAllSyncCases, args).Some? <==> Match(MatchAnySyncCases, args).Some?
    ensures Match(MatchAllSyncCases, args).Some? ==>
              Match(MatchAllSyncCases, args).value == Signature(Tuple([Int32, Bool]), args)
  {
    MatchAnyTableExact(args);
    if Match(MatchAnySyncCases, args).Some? {
      var v := args[1];
      assert args == [Int32, v];
      assert Signature(Tuple([Int32, Bool]), args) in MatchAllSyncCases;
    }
  }

  /** `vote_sync_intrinsic` takes two `int32` and a boolean and returns an
      `int32` with a boolean. */
  lemma VoteTableExact(args: seq<Type>)
    ensures Match(VoteSyncIntrinsicCases, args) ==
              if args == [Int32, Int32, Bool] then Some(Signature(Tuple([Int32, Bool]), args)) else None
  {
    if args == [Int32, Int32, Bool] {
      assert VoteSyncIntrinsicCases[0].params == args;
    }
  }
}
