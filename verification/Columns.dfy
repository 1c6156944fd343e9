/**
 * Entries, and what a list of them does to the books: debits less credits, over everything, over
 * one account, or over one counterparty's side of an account.
 */
module Columns {
  import opened Outcomes

  datatype Account =
    | DriverReceivable
    | OwnerPayable
    | PlatformRevenue
    | GstPayable
    | TcsPayable
    | TdsPayable
    | GatewayFees
    | RefundsPayable
    | PromoExpense
    | SettlementClearing

  datatype Direction = Debit | Credit

  type UserId = string

  datatype Entry = Entry(
    account: Account,
    direction: Direction,
    amountPaise: int,
    description: string,
    counterparty: Option<UserId>)

  type Posting = seq<Entry>

  datatype Column =
    | Everything
    | Whole(account: Account)
    | Side(account: Account, whose: Option<UserId>)
  {
    predicate Covers(e: Entry)
    {
      match this
      case Everything => true
      case Whole(a) => e.account == a
      case Side(a, w) => e.account == a && e.counterparty == w
    }
  }

  /** What one entry does to a column. */
  function Effect(e: Entry, c: Column): int
  {
    if !c.Covers(e) then 0
    else if e.direction == Debit then e.amountPaise
    else -e.amountPaise
  }

  function Net(entries: Posting, c: Column): int
  {
    NetUpTo(entries, |entries|, c)
  }

  function NetUpTo(entries: Posting, n: nat, c: Column): int
    requires n <= |entries|
  {
    if n == 0 then 0 else NetUpTo(entries, n - 1, c) + Effect(entries[n - 1], c)
  }

  lemma {:induction false} NetOfPrefix(a: Posting, b: Posting, n: nat, c: Column)
    requires n <= |a| && n <= |b|
    requires forall i :: 0 <= i < n ==> a[i] == b[i]
    ensures NetUpTo(a, n, c) == NetUpTo(b, n, c)
  {
    if n == 0 {
    } else {
      NetOfPrefix(a, b, n - 1, c);
    }
  }

  lemma {:induction false} NetConcatUpTo(a: Posting, b: Posting, n: nat, c: Column)
    requires n <= |b|
    ensures NetUpTo(a + b, |a| + n, c) == Net(a, c) + NetUpTo(b, n, c)
  {
    if n == 0 {
      NetOfPrefix(a + b, a, |a|, c);
    } else {
      NetConcatUpTo(a, b, n - 1, c);
    }
  }

  lemma NetConcat(a: Posting, b: Posting, c: Column)
    ensures Net(a + b, c) == Net(a, c) + Net(b, c)
  {
    NetConcatUpTo(a, b, |b|, c);
  }

  // ----- Composing a posting

  predicate NonNegative(legs: seq<Entry>)
  {
    forall i :: 0 <= i < |legs| ==> legs[i].amountPaise >= 0
  }

  /** A posting without its zero legs, because the table refuses an amount that is not positive. */
  function Compose(legs: seq<Entry>): Posting
  {
    ComposeUpTo(legs, |legs|)
  }

  function ComposeUpTo(legs: seq<Entry>, n: nat): Posting
    requires n <= |legs|
  {
    if n == 0 then []
    else if legs[n - 1].amountPaise > 0 then ComposeUpTo(legs, n - 1) + [legs[n - 1]]
    else ComposeUpTo(legs, n - 1)
  }

  /** Exactly the positive legs are kept. */
  lemma ComposedEntries(legs: seq<Entry>)
    ensures forall e :: e in Compose(legs) <==> e in legs && e.amountPaise > 0
  {
    ComposedEntriesUpTo(legs, |legs|);
    assert legs[..|legs|] == legs;
  }

  lemma {:induction false} ComposedEntriesUpTo(legs: seq<Entry>, n: nat)
    requires n <= |legs|
    ensures forall e :: e in ComposeUpTo(legs, n) <==> e in legs[..n] && e.amountPaise > 0
  {
    if n == 0 {
    } else {
      ComposedEntriesUpTo(legs, n - 1);
      assert legs[..n] == legs[..n - 1] + [legs[n - 1]];
    }
  }

  lemma {:induction false} ComposeKeepsNetUpTo(legs: seq<Entry>, n: nat, c: Column)
    requires NonNegative(legs) && n <= |legs|
    ensures Net(ComposeUpTo(legs, n), c) == NetUpTo(legs, n, c)
  {
    if n == 0 {
    } else {
      ComposeKeepsNetUpTo(legs, n - 1, c);
      var last := [legs[n - 1]];
      NetConcat(ComposeUpTo(legs, n - 1), last, c);
      assert Net(last, c) == NetUpTo(last, 0, c) + Effect(last[0], c);
    }
  }

  /** Leaving out zero legs changes no column. */
  lemma ComposeKeepsNet(legs: seq<Entry>, c: Column)
    requires NonNegative(legs)
    ensures Net(Compose(legs), c) == Net(legs, c)
  {
    ComposeKeepsNetUpTo(legs, |legs|, c);
  }

  function EffectAt(legs: seq<Entry>, i: nat, c: Column): int
  {
    if i < |legs| then Effect(legs[i], c) else 0
  }

  function EffectsUpTo(legs: seq<Entry>, n: nat, c: Column): int
  {
    if n == 0 then 0 else EffectsUpTo(legs, n - 1, c) + EffectAt(legs, n - 1, c)
  }

  lemma {:induction false} EffectsAreNet(legs: seq<Entry>, n: nat, c: Column)
    ensures EffectsUpTo(legs, n, c) == NetUpTo(legs, if n < |legs| then n else |legs|, c)
  {
    if n == 0 {
    } else {
      EffectsAreNet(legs, n - 1, c);
    }
  }

  /** The column total of a short posting, leg by leg. */
  lemma NetOfLegs(legs: seq<Entry>, c: Column)
    requires |legs| <= 8 && NonNegative(legs)
    ensures Net(Compose(legs), c)
      == EffectAt(legs, 0, c) + EffectAt(legs, 1, c) + EffectAt(legs, 2, c) + EffectAt(legs, 3, c)
         + EffectAt(legs, 4, c) + EffectAt(legs, 5, c) + EffectAt(legs, 6, c) + EffectAt(legs, 7, c)
  {
    ComposeKeepsNet(legs, c);
    EffectsAreNet(legs, 8, c);
    assert EffectsUpTo(legs, 1, c) == EffectAt(legs, 0, c);
    assert EffectsUpTo(legs, 2, c) == EffectsUpTo(legs, 1, c) + EffectAt(legs, 1, c);
    assert EffectsUpTo(legs, 3, c) == EffectsUpTo(legs, 2, c) + EffectAt(legs, 2, c);
    assert EffectsUpTo(legs, 4, c) == EffectsUpTo(legs, 3, c) + EffectAt(legs, 3, c);
    assert EffectsUpTo(legs, 5, c) == EffectsUpTo(legs, 4, c) + EffectAt(legs, 4, c);
    assert EffectsUpTo(legs, 6, c) == EffectsUpTo(legs, 5, c) + EffectAt(legs, 5, c);
    assert EffectsUpTo(legs, 7, c) == EffectsUpTo(legs, 6, c) + EffectAt(legs, 6, c);
  }
}
