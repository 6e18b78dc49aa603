/** The ISO reward: a penalty on the mismatch between the dispatch the ISO
    committed to and the demand that was realized in the same tick. */
module IsoMismatchReward {
  import opened Outcomes

  const DISPATCH: string := "dispatch"
  const REALIZED_DEMAND: string := "realized_demand"

  function Abs(x: real): real
  {
    if x < 0.0 then -x else x
  }

  /** The reward is minus the distance between dispatch and realized demand:
      it is never positive, it is one of the two signed differences, and it
      vanishes exactly when the two quantities agree. */
  function ComputeReward(info: InfoMap): (r: real)
    ensures r <= 0.0
    ensures r == GetOrZero(info, DISPATCH) - GetOrZero(info, REALIZED_DEMAND)
         || r == GetOrZero(info, REALIZED_DEMAND) - GetOrZero(info, DISPATCH)
    ensures r == 0.0 <==> GetOrZero(info, DISPATCH) == GetOrZero(info, REALIZED_DEMAND)
  {
    var dispatch := GetOrZero(info, DISPATCH);
    var realized := GetOrZero(info, REALIZED_DEMAND);
    -Abs(dispatch - realized)
  }

  /** With neither quantity present both default to zero, so the reward is zero. */
  lemma EmptyInfoGivesZero()
    ensures ComputeReward(map[]) == 0.0
  {
  }

  /** Dispatch 100 against a realized demand of 80 costs 20. */
  lemma OverDispatchExample()
    ensures ComputeReward(map[DISPATCH := 100.0, REALIZED_DEMAND := 80.0]) == -20.0
  {
  }

  /** Over- and under-dispatch by the same amount are penalized alike. */
  lemma SwapIsSymmetric(info: InfoMap, a: real, b: real)
    ensures ComputeReward(info[DISPATCH := a][REALIZED_DEMAND := b])
         == ComputeReward(info[DISPATCH := b][REALIZED_DEMAND := a])
  {
  }

  /** Only the two consumed entries matter: infos that agree on them (present
      with the same value, or both absent) give the same reward, whatever else
      (shortfall, reserve cost, prices) they carry. */
  lemma DependsOnlyOnMismatchKeys(info1: InfoMap, info2: InfoMap)
    requires DISPATCH in info1 <==> DISPATCH in info2
    requires DISPATCH in info1 ==> info1[DISPATCH] == info2[DISPATCH]
    requires REALIZED_DEMAND in info1 <==> REALIZED_DEMAND in info2
    requires REALIZED_DEMAND in info1 ==> info1[REALIZED_DEMAND] == info2[REALIZED_DEMAND]
    ensures ComputeReward(info1) == ComputeReward(info2)
  {
  }

  /** A larger mismatch never earns a larger reward. */
  lemma LargerMismatchLowerReward(info1: InfoMap, info2: InfoMap)
    requires Abs(GetOrZero(info1, DISPATCH) - GetOrZero(info1, REALIZED_DEMAND))
          <= Abs(GetOrZero(info2, DISPATCH) - GetOrZero(info2, REALIZED_DEMAND))
    ensures ComputeReward(info2) <= ComputeReward(info1)
  {
  }
}
