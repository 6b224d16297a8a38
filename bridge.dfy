/** The native bridge (`_googleMobileAds.native`) as seen from the facade: it records the calls
    it receives and answers `rewardedShow` with a value the facade does not interpret. */
module Bridge {
  import opened Js

  /** One outgoing call to the native side. */
  datatype Call =
    | RewardedLoad(requestId: nat, adUnitId: Value, options: Value)
    | RewardedShow(requestId: nat, adUnitId: Value, options: Value)

  /** Number of `rewardedLoad` calls in a log. */
  function CountLoads(calls: seq<Call>): nat
  {
    if calls == [] then 0
    else CountLoads(calls[..|calls| - 1]) + (if calls[|calls| - 1].RewardedLoad? then 1 else 0)
  }

  lemma {:induction false} CountLoadsAppend(a: seq<Call>, b: seq<Call>)
    ensures CountLoads(a + b) == CountLoads(a) + CountLoads(b)
  {
    if b != [] {
      assert (a + b)[..|a + b| - 1] == a + b[..|b| - 1];
      CountLoadsAppend(a, b[..|b| - 1]);
    } else {
      assert a + b == a;
    }
  }

  class NativeBridge {
    /** Every call received so far, oldest first. */
    var calls: seq<Call>
    /** What `rewardedShow` returns synchronously (on Android, a promise). */
    const showReply: (nat, Value, Value) -> Value

    constructor (showReply: (nat, Value, Value) -> Value)
      ensures calls == [] && this.showReply == showReply
    {
      calls := [];
      this.showReply := showReply;
    }

    method RewardedLoad(requestId: nat, adUnitId: Value, options: Value)
      modifies this
      ensures calls == old(calls) + [Call.RewardedLoad(requestId, adUnitId, options)]
    {
      calls := calls + [Call.RewardedLoad(requestId, adUnitId, options)];
    }

    method RewardedShow(requestId: nat, adUnitId: Value, options: Value) returns (r: Value)
      modifies this
      ensures calls == old(calls) + [Call.RewardedShow(requestId, adUnitId, options)]
      ensures r == showReply(requestId, adUnitId, options)
    {
      calls := calls + [Call.RewardedShow(requestId, adUnitId, options)];
      r := showReply(requestId, adUnitId, options);
    }
  }
}
