/** The credit ledger of the credit provider: one integer balance that starts at 10, is lowered by a
    saturating decrement and raised by top-ups of any amount. Outside a provider the default context
    reports 0 credits and ignores both operations. */
module Credits {

  /** `useState(10)`: the free credits a new provider starts with. */
  const InitialCredits := 10

  /** `Math.max(0, prev - 1)`: one credit less, but never below zero. */
  function Spend(balance: int): (r: int)
    ensures r >= 0
    ensures balance >= 1 ==> r == balance - 1
    ensures balance <= 1 ==> r == 0
  {
    if balance - 1 > 0 then balance - 1 else 0
  }

  /** The provider's `credits` state with its two updaters. */
  class CreditLedger {
    var credits: int

    constructor ()
      ensures credits == InitialCredits
    {
      credits := InitialCredits;
    }

    /** `useCredit()`. */
    method UseCredit()
      modifies this
      ensures credits == Spend(old(credits))
    {
      credits := if credits - 1 > 0 then credits - 1 else 0;
    }

    /** `addCredits(amount)`: no upper cap, and no guard against a negative amount. */
    method AddCredits(amount: int)
      modifies this
      ensures credits == old(credits) + amount
    {
      credits := credits + amount;
    }
  }

  // ---------------------------------------------------------------------------
  // Sequences of ledger operations, inside and outside a provider
  // ---------------------------------------------------------------------------

  datatype LedgerOp = UseOne | AddAmount(amount: int)

  /** Where `useCredits()` is called: under a `CreditProvider`, or with the default context value. */
  datatype Context = Provider | DefaultContext

  function InitialBalance(ctx: Context): (b: int)
    ensures ctx == Provider ==> b == 10
    ensures ctx == DefaultContext ==> b == 0
  {
    match ctx
    case Provider => InitialCredits
    case DefaultContext => 0
  }

  /** One operation; the default context's `useCredit` and `addCredits` are `() => {}`. */
  function Step(ctx: Context, balance: int, op: LedgerOp): (r: int)
    ensures ctx == DefaultContext ==> r == balance
    ensures ctx == Provider && op.UseOne? ==> r == Spend(balance)
    ensures ctx == Provider && op.AddAmount? ==> r == balance + op.amount
  {
    match (ctx, op)
    case (DefaultContext, _) => balance
    case (Provider, UseOne) => Spend(balance)
    case (Provider, AddAmount(n)) => balance + n
  }

  /** The balance after applying `ops` in order. */
  function Run(ctx: Context, balance: int, ops: seq<LedgerOp>): int
    decreases |ops|
  {
    if ops == [] then balance else Run(ctx, Step(ctx, balance, ops[0]), ops[1..])
  }

  predicate NoNegativeTopUps(ops: seq<LedgerOp>)
  {
    forall i :: 0 <= i < |ops| ==> (ops[i].AddAmount? ==> ops[i].amount >= 0)
  }

  lemma NoNegativeTopUpsTail(ops: seq<LedgerOp>)
    requires ops != [] && NoNegativeTopUps(ops)
    ensures NoNegativeTopUps(ops[1..])
  {
    forall i | 0 <= i < |ops[1..]| ensures ops[1..][i].AddAmount? ==> ops[1..][i].amount >= 0 {
      assert ops[1..][i] == ops[i + 1];
    }
  }

  /** The total of all top-ups in `ops`. */
  function Added(ops: seq<LedgerOp>): int
    decreases |ops|
  {
    if ops == [] then 0
    else (if ops[0].AddAmount? then ops[0].amount else 0) + Added(ops[1..])
  }

  /** The number of `useCredit` calls in `ops`. */
  function Uses(ops: seq<LedgerOp>): nat
    decreases |ops|
  {
    if ops == [] then 0 else (if ops[0].UseOne? then 1 else 0) + Uses(ops[1..])
  }

  /** With non-negative top-ups, no sequence of operations drives a non-negative balance below zero. */
  lemma {:induction false} RunStaysNonNegative(balance: int, ops: seq<LedgerOp>)
    requires balance >= 0
    requires NoNegativeTopUps(ops)
    ensures Run(Provider, balance, ops) >= 0
    decreases |ops|
  {
    if ops != [] {
      NoNegativeTopUpsTail(ops);
      RunStaysNonNegative(Step(Provider, balance, ops[0]), ops[1..]);
    }
  }

  /** Each use costs at most one credit and each top-up adds exactly its amount. */
  lemma {:induction false} RunLowerBound(balance: int, ops: seq<LedgerOp>)
    ensures Run(Provider, balance, ops) >= balance + Added(ops) - Uses(ops)
    decreases |ops|
  {
    if ops != [] {
      RunLowerBound(Step(Provider, balance, ops[0]), ops[1..]);
    }
  }

  /** With non-negative top-ups a use never adds credits, so the balance ends at most at the start plus the top-ups. */
  lemma {:induction false} RunUpperBound(balance: int, ops: seq<LedgerOp>)
    requires balance >= 0
    requires NoNegativeTopUps(ops)
    ensures Run(Provider, balance, ops) <= balance + Added(ops)
    decreases |ops|
  {
    if ops != [] {
      NoNegativeTopUpsTail(ops);
      RunUpperBound(Step(Provider, balance, ops[0]), ops[1..]);
    }
  }

  /** Saturation is why the upper bound needs non-negative top-ups: a use at a negative balance jumps to zero. */
  lemma NegativeTopUpThenUseGainsCredits()
    ensures Run(Provider, 0, [AddAmount(-5), UseOne, AddAmount(5)]) == 5
    ensures Added([AddAmount(-5), UseOne, AddAmount(5)]) == 0
  {
  }

  /** The default context value stays at 0 credits whatever is called on it. */
  lemma {:induction false} DefaultContextInert(balance: int, ops: seq<LedgerOp>)
    ensures Run(DefaultContext, balance, ops) == balance
    decreases |ops|
  {
    if ops != [] {
      DefaultContextInert(balance, ops[1..]);
    }
  }

  /** `addCredits` has no guard: a negative amount can push the balance below zero. */
  lemma NegativeTopUpGoesBelowZero()
    ensures Run(Provider, InitialCredits, [AddAmount(-11)]) == -1
  {
  }
}
