// Sums over the transaction table, the ledger and the wallets.
module Sums {
  import opened Wrappers
  import opened Uuid
  import opened Model
  import opened Engine

  // What a sum over the transaction table adds up.
  datatype Measure =
    | AllMoves(wallet: Id)   // every transaction's effect on a wallet
    | LiveMoves(wallet: Id)  // the effect of the live ones only
    | LiveTopUps             // money that came in and has not gone back

  // A top-up or transfer that has not been reversed.
  predicate Live(row: Transaction) { row.kind != Reversal && row.status == Completed }

  function Effect(row: Transaction, wallet: Id): int
  {
    (if row.destination == Some(wallet) then row.amount else 0) - (if row.source == Some(wallet) then row.amount else 0)
  }

  function Weight(row: Transaction, measure: Measure): int
  {
    match measure
    case AllMoves(wallet) => Effect(row, wallet)
    case LiveMoves(wallet) => if Live(row) then Effect(row, wallet) else 0
    case LiveTopUps => if Live(row) && row.kind == TopUp then row.amount else 0
  }

  function Sum(rows: seq<Transaction>, measure: Measure): int
    decreases |rows|
  {
    if rows == [] then 0 else Sum(rows[..|rows| - 1], measure) + Weight(rows[|rows| - 1], measure)
  }

  lemma SumAppend(rows: seq<Transaction>, row: Transaction, measure: Measure)
    ensures Sum(rows + [row], measure) == Sum(rows, measure) + Weight(row, measure)
  {
    assert (rows + [row])[..|rows|] == rows;
  }

  lemma {:induction false} SumUpdate(rows: seq<Transaction>, i: nat, row: Transaction, measure: Measure)
    requires i < |rows|
    ensures Sum(rows[i := row], measure) == Sum(rows, measure) - Weight(rows[i], measure) + Weight(row, measure)
    decreases |rows|
  {
    var n := |rows| - 1;
    if i == n {
      assert rows[i := row][..n] == rows[..n];
    } else {
      assert rows[i := row][..n] == rows[..n][i := row];
      SumUpdate(rows[..n], i, row, measure);
    }
  }

  // Credits minus debits of one wallet.
  function LedgerNet(entries: seq<LedgerEntry>, wallet: Id): int
    decreases |entries|
  {
    if entries == [] then 0
    else
      var last := entries[|entries| - 1];
      LedgerNet(entries[..|entries| - 1], wallet)
      + if last.wallet != wallet then 0 else if last.entryType == Credit then last.amount else -last.amount
  }

  lemma LedgerAppend(entries: seq<LedgerEntry>, row: Transaction, m: Movement, wallet: Id)
    requires row.source == Some(m.source) && row.destination == Some(m.destination) && row.amount == m.amount
    ensures LedgerNet(entries + Entries(row, m), wallet) == LedgerNet(entries, wallet) + Effect(row, wallet)
  {
    var more := Entries(row, m);
    assert (entries + more)[..|entries| + 1] == entries + [more[0]];
    assert (entries + [more[0]])[..|entries|] == entries;
  }

  // The sum of all balances.
  ghost function Total(wallets: map<Id, Wallet>): int
    decreases |wallets|
  {
    if wallets == map[] then 0
    else
      var id :| id in wallets;
      Total(wallets - {id}) + wallets[id].balance
  }

  lemma {:induction false} TotalRemove(wallets: map<Id, Wallet>, id: Id)
    requires id in wallets
    ensures Total(wallets) == Total(wallets - {id}) + wallets[id].balance
    decreases |wallets|
  {
    var first :| first in wallets && Total(wallets) == Total(wallets - {first}) + wallets[first].balance;
    if first == id {
    } else {
      TotalRemove(wallets - {first}, id);
      TotalRemove(wallets - {id}, first);
      assert wallets - {first} - {id} == wallets - {id} - {first};
    }
  }

  lemma TotalSet(wallets: map<Id, Wallet>, id: Id, wallet: Wallet)
    ensures Total(wallets[id := wallet])
         == Total(wallets) + wallet.balance - if id in wallets then wallets[id].balance else 0
  {
    TotalRemove(wallets[id := wallet], id);
    if id in wallets {
      TotalRemove(wallets, id);
      assert wallets[id := wallet] - {id} == wallets - {id};
    } else {
      assert wallets[id := wallet] - {id} == wallets;
    }
  }

  lemma {:induction false} TotalNonNegative(wallets: map<Id, Wallet>)
    requires forall id | id in wallets :: wallets[id].balance >= 0
    ensures Total(wallets) >= 0
    decreases |wallets|
  {
    if wallets == map[] {
    } else {
      var id :| id in wallets && Total(wallets) == Total(wallets - {id}) + wallets[id].balance;
      TotalNonNegative(wallets - {id});
    }
  }
}
