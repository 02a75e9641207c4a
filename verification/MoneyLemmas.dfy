/** The ledger arithmetic behind the money invariant. */
module MoneyLemmas {
  import opened Domain
  import opened Tables
  import opened Invariants

  lemma {:induction false} EntriesAppend(a: seq<LedgerEntry>, b: seq<LedgerEntry>, t: Id)
    ensures EntriesOf(a + b, t) == EntriesOf(a, t) + EntriesOf(b, t)
  {
    if b == [] {
      assert a + b == a;
    } else {
      assert (a + b)[..|a + b| - 1] == a + b[..|b| - 1];
      EntriesAppend(a, b[..|b| - 1], t);
    }
  }

  lemma {:induction false} NoEntries(ledger: seq<LedgerEntry>, t: Id)
    requires forall i :: 0 <= i < |ledger| ==> ledger[i].txId != t
    ensures EntriesOf(ledger, t) == []
  {
    if ledger != [] {
      NoEntries(ledger[..|ledger| - 1], t);
    }
  }

  lemma {:induction false} EntriesCover(ledger: seq<LedgerEntry>, t: Id, i: nat)
    requires i < |ledger| && ledger[i].txId == t
    ensures EntriesOf(ledger, t) != []
  {
    if i < |ledger| - 1 {
      EntriesCover(ledger[..|ledger| - 1], t, i);
    }
  }

  lemma PairEntries(x: LedgerEntry, y: LedgerEntry, t: Id)
    requires x.txId == y.txId
    ensures EntriesOf([x, y], t) == if t == x.txId then [x, y] else []
  {
    assert [x, y][..1] == [x] && [x][..0] == [];
    assert EntriesOf([x], t) == EntriesOf([], t) + (if x.txId == t then [x] else []);
  }

  lemma PairSum(x: LedgerEntry, y: LedgerEntry, weight: LedgerEntry -> int)
    ensures Sum([x, y], weight) == weight(x) + weight(y)
  {
    assert [x, y][..1] == [x] && [x][..0] == [];
    assert Sum([x], weight) == Sum([], weight) + weight(x);
  }

  /** Posting the two entries a transaction calls for, on a transaction that had none. */
  lemma PostKeepsLedger(ts: map<Id, Transaction>, ledger: seq<LedgerEntry>, tx: Transaction)
    requires LedgerOk(ts, ledger)
    requires tx.id in ts ==> Expected(ts[tx.id]) == []
    ensures LedgerOk(ts[tx.id := tx], ledger + Expected(tx))
  {
    var entries := Expected(tx);
    if tx.id !in ts {
      NoEntries(ledger, tx.id);
    }
    forall t | t in ts[tx.id := tx] ensures EntriesOf(ledger + entries, t) == Expected(ts[tx.id := tx][t]) {
      EntriesAppend(ledger, entries, t);
      if entries == [] {
        assert EntriesOf(entries, t) == [];
      } else {
        assert entries == [entries[0], entries[1]];
        PairEntries(entries[0], entries[1], t);
      }
    }
  }

  /** A transaction without entries can take both of its entries. */
  lemma EntriesFit(ts: map<Id, Transaction>, ledger: seq<LedgerEntry>, tx: Transaction, entries: seq<LedgerEntry>)
    requires LedgerOk(ts, ledger)
    requires tx.id in ts ==> Expected(ts[tx.id]) == []
    requires forall j :: 0 <= j < |entries| ==> entries[j].txId == tx.id
    ensures EntriesAreNew(ledger, entries)
  {
    forall i | 0 <= i < |ledger| ensures ledger[i].txId != tx.id {
      if ledger[i].txId == tx.id {
        EntriesCover(ledger, tx.id, i);
      }
    }
  }

  /** A posting keeps every customer account at or above zero if it does so for the account it debits. */
  lemma PostKeepsSolvent(ledger: seq<LedgerEntry>, x: LedgerEntry, y: LedgerEntry)
    requires Solvent(ledger)
    requires x.amount >= 0 || Balance(ledger, x.account, x.currency) + x.amount >= 0
    requires !IsCustomer(y.account)
    ensures Solvent(ledger + [x, y])
  {
    forall a, c | IsCustomer(a) ensures Balance(ledger + [x, y], a, c) >= 0 {
      SumAppend(ledger, [x, y], AccountWeight(a, c));
      PairSum(x, y, AccountWeight(a, c));
      assert Balance(ledger, a, c) >= 0;
    }
  }

  // ----- the whole ledger as a sum over transactions -----

  /** The sum of `value` over a set of transaction ids. */
  ghost function Total(ids: set<Id>, value: Id -> int): int {
    if ids == {} then 0
    else
      var t :| t in ids;
      value(t) + Total(ids - {t}, value)
  }

  lemma {:induction false} TotalSplit(ids: set<Id>, t: Id, value: Id -> int)
    requires t in ids
    ensures Total(ids, value) == value(t) + Total(ids - {t}, value)
  {
    var u :| u in ids && Total(ids, value) == value(u) + Total(ids - {u}, value);
    if u != t {
      TotalSplit(ids - {u}, t, value);
      TotalSplit(ids - {t}, u, value);
      assert ids - {u} - {t} == ids - {t} - {u};
    }
  }

  lemma {:induction false} TotalSame(ids: set<Id>, v: Id -> int, w: Id -> int)
    requires forall t :: t in ids ==> v(t) == w(t)
    ensures Total(ids, v) == Total(ids, w)
  {
    if ids != {} {
      var t :| t in ids;
      TotalSplit(ids, t, v);
      TotalSplit(ids, t, w);
      TotalSame(ids - {t}, v, w);
    }
  }

  lemma {:induction false} TotalNonNegative(ids: set<Id>, value: Id -> int)
    requires forall t :: t in ids ==> value(t) >= 0
    ensures Total(ids, value) >= 0
  {
    if ids != {} {
      var t :| t in ids;
      TotalSplit(ids, t, value);
      TotalNonNegative(ids - {t}, value);
    }
  }

  /** The weight of one transaction's entries. */
  function Posted(ledger: seq<LedgerEntry>, weight: LedgerEntry -> int): Id -> int {
    (t: Id) => Sum(EntriesOf(ledger, t), weight)
  }

  lemma PostedLast(ledger: seq<LedgerEntry>, t: Id, weight: LedgerEntry -> int)
    requires ledger != []
    ensures var last := ledger[|ledger| - 1];
            Posted(ledger, weight)(t) ==
            Posted(ledger[..|ledger| - 1], weight)(t) + if last.txId == t then weight(last) else 0
  {
    var front, last := ledger[..|ledger| - 1], ledger[|ledger| - 1];
    if last.txId == t {
      var entries := EntriesOf(front, t) + [last];
      assert entries[..|entries| - 1] == EntriesOf(front, t);
    } else {
      assert EntriesOf(front, t) + [] == EntriesOf(front, t);
    }
  }

  /** Any weighting of the ledger adds up transaction by transaction. */
  lemma {:induction false} SumByTransaction(ledger: seq<LedgerEntry>, ids: set<Id>, weight: LedgerEntry -> int)
    requires forall i :: 0 <= i < |ledger| ==> ledger[i].txId in ids
    ensures Sum(ledger, weight) == Total(ids, Posted(ledger, weight))
  {
    if ledger == [] {
      TotalZero(ids, Posted(ledger, weight));
    } else {
      var front, last := ledger[..|ledger| - 1], ledger[|ledger| - 1];
      SumByTransaction(front, ids, weight);
      forall t ensures Posted(ledger, weight)(t) ==
                       Posted(front, weight)(t) + if last.txId == t then weight(last) else 0
      {
        PostedLast(ledger, t, weight);
      }
      TotalSplit(ids, last.txId, Posted(ledger, weight));
      TotalSplit(ids, last.txId, Posted(front, weight));
      TotalSame(ids - {last.txId}, Posted(ledger, weight), Posted(front, weight));
    }
  }

  lemma {:induction false} TotalZero(ids: set<Id>, value: Id -> int)
    requires forall t :: t in ids ==> value(t) == 0
    ensures Total(ids, value) == 0
  {
    if ids != {} {
      var t :| t in ids;
      TotalSplit(ids, t, value);
      TotalZero(ids - {t}, value);
    }
  }

  /** What a transaction contributes to a customer account: deposits count up, authorized payments down. */
  function Contribution(tx: Transaction, account: Id, currency: string): int {
    if tx.account != account || tx.currency != currency then 0
    else if tx.kind == Deposit then tx.amount
    else if tx.status == Authorized then -tx.amount
    else 0
  }

  /** The contribution of each transaction of a table. */
  function Net(ts: map<Id, Transaction>, account: Id, currency: string): Id -> int {
    (t: Id) => if t in ts then Contribution(ts[t], account, currency) else 0
  }

  lemma ExpectedWeight(tx: Transaction, weight: LedgerEntry -> int)
    ensures Sum(Expected(tx), weight) ==
            if Expected(tx) == [] then 0 else weight(Expected(tx)[0]) + weight(Expected(tx)[1])
  {
    if Expected(tx) != [] {
      PairSum(Expected(tx)[0], Expected(tx)[1], weight);
      assert Expected(tx) == [Expected(tx)[0], Expected(tx)[1]];
    }
  }

  lemma PostedIsNet(ts: map<Id, Transaction>, ledger: seq<LedgerEntry>, t: Id, account: Id, currency: string)
    requires t in ts && TxOk(ts[t]) && EntriesOf(ledger, t) == Expected(ts[t]) && IsCustomer(account)
    ensures Posted(ledger, AccountWeight(account, currency))(t) == Net(ts, account, currency)(t)
  {
    ExpectedWeight(ts[t], AccountWeight(account, currency));
  }

  /** The balance the ledger scan reports is deposits minus authorized payments. */
  lemma BalanceIsNetOfTransactions(ts: map<Id, Transaction>, ledger: seq<LedgerEntry>, account: Id, currency: string)
    requires TransactionsOk(ts) && LedgerOk(ts, ledger) && IsCustomer(account)
    ensures Balance(ledger, account, currency) == Total(ts.Keys, Net(ts, account, currency))
  {
    var weight := AccountWeight(account, currency);
    SumByTransaction(ledger, ts.Keys, weight);
    forall t | t in ts.Keys ensures Posted(ledger, weight)(t) == Net(ts, account, currency)(t) {
      PostedIsNet(ts, ledger, t, account, currency);
    }
    TotalSame(ts.Keys, Posted(ledger, weight), Net(ts, account, currency));
  }

  /** Double entry: every currency sums to zero over all accounts. */
  lemma BooksBalance(ts: map<Id, Transaction>, ledger: seq<LedgerEntry>, currency: string)
    requires LedgerOk(ts, ledger)
    ensures Sum(ledger, CurrencyWeight(currency)) == 0
  {
    var weight := CurrencyWeight(currency);
    SumByTransaction(ledger, ts.Keys, weight);
    forall t | t in ts.Keys ensures Posted(ledger, weight)(t) == 0 {
      EntriesBalance(ts[t], currency);
    }
    TotalZero(ts.Keys, Posted(ledger, weight));
  }

  /** What a transaction posts sums to zero in every currency. */
  lemma EntriesBalance(tx: Transaction, currency: string)
    ensures Sum(Expected(tx), CurrencyWeight(currency)) == 0
  {
    ExpectedWeight(tx, CurrencyWeight(currency));
  }
}
