/** The estimated cost of the operations overview: usage priced per minute and rounded up. */
module OperationalCost {
  import opened Options

  datatype Usage = Usage(seconds: nat, rateUsdMicrosPerMinute: Option<nat>)

  datatype Status = Unavailable | Partial | Estimated

  /** Rounded up, as `Math.ceil(seconds * rate / 60)`. */
  function Estimate(u: Usage): (e: Option<nat>)
    ensures e.Some? <==> u.rateUsdMicrosPerMinute.Some?
    ensures e.Some? ==> 60 * (e.value - 1) < u.seconds * u.rateUsdMicrosPerMinute.value <= 60 * e.value
  {
    if u.rateUsdMicrosPerMinute.None? then None
    else Some((u.seconds * u.rateUsdMicrosPerMinute.value + 59) / 60)
  }

  function Configured(us: seq<Usage>): nat {
    if us == [] then 0 else (if us[0].rateUsdMicrosPerMinute.Some? then 1 else 0) + Configured(us[1..])
  }

  function SumOfEstimates(us: seq<Usage>): Option<nat> {
    if us == [] then None
    else
      var first, rest := Estimate(us[0]), SumOfEstimates(us[1..]);
      if first.None? then rest else Some(first.value + if rest.None? then 0 else rest.value)
  }

  function StatusOf(us: seq<Usage>): Status {
    if Configured(us) == 0 then Unavailable else if Configured(us) == |us| then Estimated else Partial
  }

  /** Sixty times the unrounded total. */
  function Exact(us: seq<Usage>): nat {
    if us == [] then 0
    else
      var first := if us[0].rateUsdMicrosPerMinute.Some? then us[0].seconds * us[0].rateUsdMicrosPerMinute.value else 0;
      first + Exact(us[1..])
  }

  /** A total exists exactly when some rate is configured, it is complete exactly when all are, and it
      is never below the exact cost nor as much as one micro-dollar per configured rate above it. */
  lemma {:induction false} TotalIsRoundedUp(us: seq<Usage>)
    ensures SumOfEstimates(us).None? <==> StatusOf(us).Unavailable?
    ensures Configured(us) <= |us|
    ensures us != [] ==> (StatusOf(us).Estimated? <==> forall u :: u in us ==> u.rateUsdMicrosPerMinute.Some?)
    ensures SumOfEstimates(us).Some? ==>
      Exact(us) <= 60 * SumOfEstimates(us).value <= Exact(us) + 59 * Configured(us)
    ensures SumOfEstimates(us).None? ==> Exact(us) == 0
    decreases |us|
  {
    if us != [] {
      TotalIsRoundedUp(us[1..]);
      assert us == [us[0]] + us[1..];
      if us[1..] == [] { assert forall u :: u in us ==> u == us[0]; }
      assert Estimate(us[0]).Some? ==>
        60 * Estimate(us[0]).value <= us[0].seconds * us[0].rateUsdMicrosPerMinute.value + 59;
    }
  }
}
