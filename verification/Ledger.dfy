/** The append-only ledger: stored postings, stamped with the counterparty they belong to. */
module Ledger {
  import opened Outcomes
  import opened Columns
  import opened LedgerEntries

  function StampEntry(e: Entry, whose: Option<UserId>): Entry
  {
    if e.counterparty.None? then e.(counterparty := whose) else e
  }

  /** Storing a posting: an entry's own counterparty wins over the posting's. */
  function Stamp(p: Posting, whose: Option<UserId>): (r: Posting)
    ensures |r| == |p|
  {
    seq(|p|, i requires 0 <= i < |p| => StampEntry(p[i], whose))
  }

  lemma {:induction false} StampKeepsAccountsUpTo(p: Posting, whose: Option<UserId>, n: nat, c: Column)
    requires !c.Side? && n <= |p|
    ensures NetUpTo(Stamp(p, whose), n, c) == NetUpTo(p, n, c)
  {
    if n == 0 {
    } else {
      StampKeepsAccountsUpTo(p, whose, n - 1, c);
    }
  }

  /** Stamping says whose side a row is on; it changes no account. */
  lemma StampKeepsAccounts(p: Posting, whose: Option<UserId>, c: Column)
    requires !c.Side?
    ensures Net(Stamp(p, whose), c) == Net(p, c)
    ensures Balanced(p) ==> Balanced(Stamp(p, whose))
  {
    StampKeepsAccountsUpTo(p, whose, |p|, c);
    StampKeepsAccountsUpTo(p, whose, |p|, Everything);
    if AllPositive(p) {
      forall e | e in Stamp(p, whose)
        ensures e.amountPaise > 0
      {
        var i :| 0 <= i < |p| && Stamp(p, whose)[i] == e;
        assert p[i] in p;
      }
    }
  }

  ghost predicate Unowned(p: Posting)
  {
    forall i :: 0 <= i < |p| ==> p[i].counterparty.None?
  }

  lemma UnownedCompose(legs: seq<Entry>)
    requires Unowned(legs)
    ensures Unowned(Compose(legs))
  {
    ComposedEntries(legs);
    forall i | 0 <= i < |Compose(legs)|
      ensures Compose(legs)[i].counterparty.None?
    {
      assert Compose(legs)[i] in Compose(legs);
    }
  }

  lemma {:induction false} StampedSideUpTo(p: Posting, owner: UserId, a: Account, whose: Option<UserId>, n: nat)
    requires Unowned(p) && n <= |p|
    ensures NetUpTo(Stamp(p, Some(owner)), n, Side(a, whose))
      == if whose == Some(owner) then NetUpTo(p, n, Whole(a)) else 0
  {
    if n == 0 {
    } else {
      StampedSideUpTo(p, owner, a, whose, n - 1);
    }
  }

  /** A posting whose entries carry no counterparty lands wholly on the stamped one's side. */
  lemma StampedSide(legs: seq<Entry>, owner: UserId, a: Account, whose: Option<UserId>)
    requires Unowned(legs)
    ensures Net(Stamp(Compose(legs), Some(owner)), Side(a, whose))
      == if whose == Some(owner) then Net(Compose(legs), Whole(a)) else 0
  {
    UnownedCompose(legs);
    StampedSideUpTo(Compose(legs), owner, a, whose, |Compose(legs)|);
  }

  // ----- The books

  function BooksUpTo(ledger: seq<Posting>, n: nat, c: Column): int
    requires n <= |ledger|
  {
    if n == 0 then 0 else BooksUpTo(ledger, n - 1, c) + Net(ledger[n - 1], c)
  }

  /** A column's balance over the whole ledger. */
  function Books(ledger: seq<Posting>, c: Column): int
  {
    BooksUpTo(ledger, |ledger|, c)
  }

  lemma {:induction false} BooksOfPrefix(a: seq<Posting>, b: seq<Posting>, n: nat, c: Column)
    requires n <= |a| && n <= |b|
    requires forall i :: 0 <= i < n ==> a[i] == b[i]
    ensures BooksUpTo(a, n, c) == BooksUpTo(b, n, c)
  {
    if n == 0 {
    } else {
      BooksOfPrefix(a, b, n - 1, c);
    }
  }

  lemma BooksAppend(ledger: seq<Posting>, p: Posting, c: Column)
    ensures Books(ledger + [p], c) == Books(ledger, c) + Net(p, c)
  {
    BooksOfPrefix(ledger + [p], ledger, |ledger|, c);
  }

  lemma BooksOf3(p1: Posting, p2: Posting, p3: Posting, c: Column)
    ensures Books([p1, p2, p3], c) == Net(p1, c) + Net(p2, c) + Net(p3, c)
  {
    var l := [p1, p2, p3];
    assert BooksUpTo(l, 1, c) == BooksUpTo(l, 0, c) + Net(l[0], c);
    assert BooksUpTo(l, 2, c) == BooksUpTo(l, 1, c) + Net(l[1], c);
  }

  lemma BooksOf6(p1: Posting, p2: Posting, p3: Posting, p4: Posting, p5: Posting, p6: Posting, c: Column)
    ensures Books([p1, p2, p3, p4, p5, p6], c)
      == Net(p1, c) + Net(p2, c) + Net(p3, c) + Net(p4, c) + Net(p5, c) + Net(p6, c)
  {
    var l := [p1, p2, p3, p4, p5, p6];
    assert BooksUpTo(l, 1, c) == BooksUpTo(l, 0, c) + Net(l[0], c);
    assert BooksUpTo(l, 2, c) == BooksUpTo(l, 1, c) + Net(l[1], c);
    assert BooksUpTo(l, 3, c) == BooksUpTo(l, 2, c) + Net(l[2], c);
    assert BooksUpTo(l, 4, c) == BooksUpTo(l, 3, c) + Net(l[3], c);
    assert BooksUpTo(l, 5, c) == BooksUpTo(l, 4, c) + Net(l[4], c);
  }
}
