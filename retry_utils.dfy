/**
 * utils/retry_utils.py: `RetryStatus`, the record of the retries granted so far. Each `increment`
 * grants one more retry and remembers its reason.
 */
module RetryUtils {
  import opened Wrappers

  /** The state a sequence of `increment` calls with these reasons leaves behind, from the defaults. */
  datatype Snapshot = Snapshot(allowed: bool, count: int, reason: Option<string>)

  function AfterIncrements(reasons: seq<string>): (s: Snapshot)
    ensures s.count == |reasons|
    ensures s.allowed <==> reasons != []
    ensures s.reason == if reasons == [] then None else Some(reasons[|reasons| - 1])
    decreases |reasons|
  {
    if reasons == [] then Snapshot(false, 0, None)
    else
      var s := AfterIncrements(reasons[..|reasons| - 1]);
      Snapshot(true, s.count + 1, Some(reasons[|reasons| - 1]))
  }

  /** Only the last reason survives: earlier reasons are overwritten. */
  lemma {:induction false} LastReasonWins(earlier: seq<string>, later: seq<string>)
    requires later != []
    ensures AfterIncrements(earlier + later).reason == AfterIncrements(later).reason
    ensures AfterIncrements(earlier + later).count == AfterIncrements(earlier).count + AfterIncrements(later).count
  {
    assert (earlier + later)[|earlier + later| - 1] == later[|later| - 1];
  }

  class RetryStatus {
    var retryAllowed: bool
    var retryCount: int
    var retryReason: Option<string>
    /** The reasons passed to `increment` since construction, oldest first. */
    ghost var reasons: seq<string>

    /** The fields are what the calls so far leave behind. */
    ghost predicate Valid()
      reads this
    {
      Snapshot(retryAllowed, retryCount, retryReason) == AfterIncrements(reasons)
    }

    /** `RetryStatus()`: no retry allowed, none counted, no reason. */
    constructor ()
      ensures Valid() && reasons == []
      ensures !retryAllowed && retryCount == 0 && retryReason == None
    {
      retryAllowed, retryCount, retryReason := false, 0, None;
      reasons := [];
    }

    /**
     * `increment(reason)`: a retry is allowed, the count goes up by exactly one and the reason
     * replaces any earlier one; the count is the number of calls since construction.
     */
    method Increment(reason: string)
      requires Valid()
      modifies this
      ensures Valid() && reasons == old(reasons) + [reason]
      ensures retryAllowed && retryCount == old(retryCount) + 1 && retryReason == Some(reason)
      ensures retryCount == |reasons|
    {
      retryAllowed := true;
      retryCount := retryCount + 1;
      retryReason := Some(reason);
      reasons := reasons + [reason];
      assert reasons[..|reasons| - 1] == old(reasons);
    }
  }
}
