/** The currency arithmetic both account services share: the balance bounds, the clamp, the
    even split of a grant across characters, crediting a balance and the top-up delta. */
module Wallet {
  import opened Numeric

  const MaxBaseCurrency: int := 10_000_000_000
  const MaxPremiumCurrency: int := 1_000_000_000

  /** The range of a C# long. */
  const LongMin: int := -0x8000_0000_0000_0000
  const LongMax: int := 0x7FFF_FFFF_FFFF_FFFF
  const LongSpan: int := 0x1_0000_0000_0000_0000

  predicate IsLong(x: int)
  {
    LongMin <= x <= LongMax
  }

  /** The services' own clamp: the lower bound is checked first, so it needs no ordered bounds. */
  function ClampCurrency(value: int, min: int, max: int): int
  {
    if value < min then min else if value > max then max else value
  }

  /** Below the range gives the minimum, above it the maximum, inside it the value itself. */
  lemma ClampCurrencyCases(value: int, min: int, max: int)
    requires min <= max
    ensures min <= ClampCurrency(value, min, max) <= max
    ensures value < min ==> ClampCurrency(value, min, max) == min
    ensures value > max ==> ClampCurrency(value, min, max) == max
    ensures min <= value <= max ==> ClampCurrency(value, min, max) == value
    ensures ClampCurrency(value, min, max) == ClampInt(value, min, max)
    ensures ClampCurrency(ClampCurrency(value, min, max), min, max) == ClampCurrency(value, min, max)
  {
  }

  /** The allocation of bucket i when amount is split over the given number of buckets:
      nothing for a non-positive amount, otherwise the quotient plus one for the first
      remainder buckets. */
  function Share(amount: int, buckets: int, i: int): int
  {
    if amount <= 0 || buckets <= 0 then 0
    else amount / buckets + (if i < amount % buckets then 1 else 0)
  }

  /** SplitAmount's result as a value. */
  function Shares(amount: int, buckets: nat): (r: seq<int>)
    ensures |r| == buckets
  {
    seq(buckets, i => Share(amount, buckets, i))
  }

  lemma {:induction false} SumOfSteps(s: seq<int>, q: int, r: int)
    requires 0 <= r <= |s|
    requires forall i :: 0 <= i < |s| ==> s[i] == q + (if i < r then 1 else 0)
    ensures Sum(s) == |s| * q + r
  {
    if s != [] {
      var rest := s[1..];
      var r' := if r > 0 then r - 1 else 0;
      forall i | 0 <= i < |rest| ensures rest[i] == q + (if i < r' then 1 else 0) {
        assert rest[i] == s[i + 1];
      }
      SumOfSteps(rest, q, r');
      assert Sum(s) == s[0] + Sum(rest);
      assert |s| * q == (|s| - 1) * q + q;
    }
  }

  /** A positive amount over at least one bucket is split without loss: the allocations add up
      to the amount, each is the quotient or one more, and they never increase. */
  lemma SharesAreFair(amount: int, buckets: nat)
    requires amount > 0 && buckets > 0
    ensures Sum(Shares(amount, buckets)) == amount
    ensures forall i :: 0 <= i < buckets ==>
              Shares(amount, buckets)[i] == amount / buckets || Shares(amount, buckets)[i] == amount / buckets + 1
    ensures forall i, j :: 0 <= i < j < buckets ==> Shares(amount, buckets)[i] >= Shares(amount, buckets)[j]
    ensures forall i :: 0 <= i < buckets ==>
              (Shares(amount, buckets)[i] == amount / buckets + 1 <==> i < amount % buckets)
  {
    var s := Shares(amount, buckets);
    SumOfSteps(s, amount / buckets, amount % buckets);
    assert amount == buckets * (amount / buckets) + amount % buckets;
  }

  /** A non-positive amount gives every bucket nothing. */
  lemma SharesOfNothing(amount: int, buckets: nat)
    requires amount <= 0
    ensures Sum(Shares(amount, buckets)) == 0
    ensures forall i :: 0 <= i < buckets ==> Shares(amount, buckets)[i] == 0
  {
    SumOfSteps(Shares(amount, buckets), 0, 0);
  }

  /** SplitAmount: fills a new array, bucket by bucket, with the allocations. */
  method SplitAmount(amount: int, buckets: nat) returns (allocations: array<int>)
    ensures allocations.Length == buckets
    ensures allocations[..] == Shares(amount, buckets)
    ensures amount > 0 && buckets > 0 ==> Sum(allocations[..]) == amount
  {
    allocations := new int[buckets](_ => 0);
    if amount <= 0 || buckets <= 0 {
      assert allocations[..] == Shares(amount, buckets);
      return;
    }
    var share := amount / buckets;
    var remainder := amount % buckets;
    var i := 0;
    while i < buckets
      invariant 0 <= i <= buckets
      invariant forall k :: 0 <= k < i ==> allocations[k] == Share(amount, buckets, k)
    {
      allocations[i] := share + (if i < remainder then 1 else 0);
      i := i + 1;
    }
    assert allocations[..] == Shares(amount, buckets);
    SharesAreFair(amount, buckets);
  }

  /** The balance after crediting delta, as the corrected services compute it: exact
      addition, then the clamp into [0, max]. */
  function Credit(balance: int, delta: int, max: int): int
  {
    ClampCurrency(balance + delta, 0, max)
  }

  /** A credit keeps the balance in range, never lowers a balance that was in range, and adds
      the whole delta when it fits under the maximum. */
  lemma CreditProperties(balance: int, delta: int, max: int)
    requires max >= 0
    ensures 0 <= Credit(balance, delta, max) <= max
    ensures 0 <= balance <= max && delta >= 0 ==> balance <= Credit(balance, delta, max)
    ensures 0 <= balance + delta <= max ==> Credit(balance, delta, max) == balance + delta
    ensures balance + delta > max ==> Credit(balance, delta, max) == max
  {
  }

  /** long addition in C#'s default unchecked context: the sum wrapped into the long range. */
  function AddLong(a: int, b: int): (r: int)
    requires IsLong(a) && IsLong(b)
    ensures IsLong(r)
    ensures (r - (a + b)) % LongSpan == 0
    ensures IsLong(a + b) ==> r == a + b
  {
    var s := a + b;
    if s > LongMax then s - LongSpan else if s < LongMin then s + LongSpan else s
  }

  /** The credit as UpdateCharacterWallet writes it: the addition happens in 64 bits before
      the clamp. */
  function CreditAsWritten(balance: int, delta: int, max: int): int
    requires IsLong(balance) && IsLong(delta)
  {
    ClampCurrency(AddLong(balance, delta), 0, max)
  }

  /** A character holding the default 1 250 base currency that is granted long.MaxValue ends
      up with nothing: the sum wraps to a negative long, which the clamp turns into 0. */
  lemma CreditAsWrittenLosesBalance()
    ensures CreditAsWritten(1_250, LongMax, MaxBaseCurrency) == 0
    ensures Credit(1_250, LongMax, MaxBaseCurrency) == MaxBaseCurrency
  {
  }

  /** Where the 64-bit sum does not wrap, the code as written and the corrected credit agree. */
  lemma CreditAsWrittenAgrees(balance: int, delta: int, max: int)
    requires IsLong(balance) && IsLong(delta) && IsLong(balance + delta)
    ensures CreditAsWritten(balance, delta, max) == Credit(balance, delta, max)
  {
  }

  /** What a top-up adds to a balance: the shortfall below the target, or nothing. */
  function TopUpDelta(target: int, current: int): (r: int)
    ensures r >= 0
    ensures r > 0 <==> current < target
    ensures current < target ==> current + r == target
  {
    MaxInt(0, target - current)
  }

  /** Topping up a balance in range raises it to the target (capped at the maximum) and never
      lowers it. */
  lemma TopUpReachesTarget(target: int, current: int, max: int)
    requires 0 <= current <= max
    ensures Credit(current, TopUpDelta(target, current), max) >= current
    ensures target <= max ==> Credit(current, TopUpDelta(target, current), max) == MaxInt(target, current)
    ensures target > max ==> Credit(current, TopUpDelta(target, current), max) == max
  {
  }

  /** long subtraction in C#'s default unchecked context: the difference wrapped into the long
      range. */
  function SubLong(a: int, b: int): (r: int)
    requires IsLong(a) && IsLong(b)
    ensures IsLong(r)
    ensures (r - (a - b)) % LongSpan == 0
    ensures IsLong(a - b) ==> r == a - b
  {
    var d := a - b;
    if d > LongMax then d - LongSpan else if d < LongMin then d + LongSpan else d
  }

  /** The in-memory service's top-up of one balance as written: the shortfall is a 64-bit
      difference, and the credit a 64-bit sum, both before any check of the target. */
  function TopUpAsWritten(target: int, current: int, max: int): int
    requires IsLong(target) && IsLong(current)
  {
    var delta := MaxInt(0, SubLong(target, current));
    if delta > 0 then CreditAsWritten(current, delta, max) else current
  }

  /** A target of long.MinValue, which the in-memory service does not refuse, empties every
      positive balance: the shortfall wraps to 2^63 minus the balance, and the credit to
      long.MinValue, which the clamp turns into 0. The corrected top-up keeps the balance. */
  lemma TopUpAsWrittenEmpties(current: int)
    requires 0 < current <= MaxBaseCurrency
    ensures TopUpAsWritten(LongMin, current, MaxBaseCurrency) == 0
    ensures Credit(current, TopUpDelta(LongMin, current), MaxBaseCurrency) == current
  {
    var delta := SubLong(LongMin, current);
    assert delta == LongMin - current + LongSpan;
    assert MaxInt(0, delta) == delta;
    assert AddLong(current, delta) == LongMin;
  }

  /** For a balance in range, where neither the difference nor the sum wraps, the top-up as
      written is the corrected one. */
  lemma TopUpAsWrittenAgrees(target: int, current: int, max: int)
    requires 0 <= current <= max && IsLong(max) && IsLong(target) && IsLong(target - current)
    requires IsLong(current + TopUpDelta(target, current))
    ensures TopUpAsWritten(target, current, max) == Credit(current, TopUpDelta(target, current), max)
  {
  }

  /** A pair of balances, as the wallet snapshots report them. */
  datatype WalletBreakdown = WalletBreakdown(baseCurrency: int, premiumCurrency: int)
  {
    function Add(base: int, premium: int): (r: WalletBreakdown)
      ensures r.baseCurrency - baseCurrency == base && r.premiumCurrency - premiumCurrency == premium
    {
      WalletBreakdown(baseCurrency + base, premiumCurrency + premium)
    }
  }

  const EmptyWallet := WalletBreakdown(0, 0)
}
