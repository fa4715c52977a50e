// The tables behind their repositories. Every method is one statement sent to the database; it may
// fail, and then it changes nothing.
module Repository {
  import opened Wrappers
  import opened Uuid
  import opened Model
  import opened Engine
  import Outbox

  type WalletRow = (Id, Wallet)

  // The row with this id, scanning as the service does: a later match wins.
  function LastRow(rows: seq<WalletRow>, id: Id): Option<Wallet>
    decreases |rows|
  {
    if rows == [] then None
    else if rows[|rows| - 1].0 == id then Some(rows[|rows| - 1].1)
    else LastRow(rows[..|rows| - 1], id)
  }

  function StoredRow(wallets: map<Id, Wallet>, id: Id): Option<Wallet>
  {
    if id in wallets then Some(wallets[id]) else None
  }

  predicate Ascending(ids: seq<Id>)
  {
    forall i, j | 0 <= i < j < |ids| :: ids[i] <= ids[j]
  }

  predicate SortedByText(ids: seq<Id>)
  {
    forall i, j | 0 <= i < j < |ids| :: !TextLess(Text(ids[j]), Text(ids[i]))
  }

  lemma TextOrderIsLockOrder(ids: seq<Id>)
    ensures SortedByText(ids) <==> Ascending(ids)
  {
    hide Text, TextLess;
    forall i, j | 0 <= i < j < |ids| ensures TextLess(Text(ids[j]), Text(ids[i])) <==> ids[j] < ids[i] {
      LockOrdersAgree(ids[j], ids[i]);
    }
  }

  // The in-place sort of the ids by their text.
  method SortByText(ids: array<Id>)
    modifies ids
    ensures multiset(ids[..]) == multiset(old(ids[..]))
    ensures SortedByText(ids[..]) && Ascending(ids[..])
  {
    hide Text, TextLess, SortedByText;
    var n := 0;
    while n < ids.Length
      invariant n <= ids.Length
      invariant Ascending(ids[..n])
      invariant multiset(ids[..]) == multiset(old(ids[..]))
    {
      Insert(ids, n);
      n := n + 1;
    }
    assert ids[..n] == ids[..];
    TextOrderIsLockOrder(ids[..]);
  }

  // The first n + 1 ids are in order, but for the one at k, which is on its way down.
  predicate SettledBut(ids: seq<Id>, n: nat, k: nat)
  {
    k <= n < |ids| && forall i, j | 0 <= i < j <= n && j != k :: ids[i] <= ids[j]
  }

  lemma SwapDown(ids: seq<Id>, n: nat, k: nat)
    requires SettledBut(ids, n, k) && k > 0 && ids[k] < ids[k - 1]
    ensures var after := ids[k - 1 := ids[k]][k := ids[k - 1]];
            SettledBut(after, n, k - 1) && multiset(after) == multiset(ids)
  {
  }

  lemma Settled(ids: seq<Id>, n: nat, k: nat)
    requires SettledBut(ids, n, k) && (k > 0 ==> ids[k - 1] <= ids[k])
    ensures Ascending(ids[..n + 1])
  {
  }

  // Moves element n down to its place among the sorted ones before it.
  method Insert(ids: array<Id>, n: nat)
    requires n < ids.Length && Ascending(ids[..n])
    modifies ids
    ensures Ascending(ids[..n + 1])
    ensures multiset(ids[..]) == multiset(old(ids[..]))
  {
    hide Text, TextLess;
    var k := n;
    assert SettledBut(ids[..], n, k);
    hide SettledBut, Ascending;
    while k > 0 && TextLess(Text(ids[k]), Text(ids[k - 1]))
      invariant 0 <= k <= n
      invariant SettledBut(ids[..], n, k)
      invariant multiset(ids[..]) == multiset(old(ids[..]))
    {
      LockOrdersAgree(ids[k], ids[k - 1]);
      ghost var before := ids[..];
      SwapDown(before, n, k);
      ids[k - 1], ids[k] := ids[k], ids[k - 1];
      assert ids[..] == before[k - 1 := before[k]][k := before[k - 1]];
      k := k - 1;
    }
    if k > 0 { LockOrdersAgree(ids[k], ids[k - 1]); }
    Settled(ids[..], n, k);
    assert ids[..][..n + 1] == ids[..n + 1];
  }

  lemma LastRowAppend(rows: seq<WalletRow>, row: WalletRow, id: Id)
    ensures LastRow(rows + [row], id) == if row.0 == id then Some(row.1) else LastRow(rows, id)
  {
    assert (rows + [row])[..|rows|] == rows;
  }

  // Rows that answer a query for these ids.
  ghost predicate Answers(rows: seq<WalletRow>, ids: seq<Id>, wallets: map<Id, Wallet>)
  {
    && (forall k, l | 0 <= k < l < |rows| :: rows[k].0 < rows[l].0)
    && (forall k | 0 <= k < |rows| :: rows[k].0 in ids && rows[k].0 in wallets)
    && (forall id :: LastRow(rows, id) == if id in ids then StoredRow(wallets, id) else None)
  }

  lemma NothingAsked(wallets: map<Id, Wallet>)
    ensures Answers([], [], wallets)
  {
  }

  lemma SkipRow(rows: seq<WalletRow>, ids: seq<Id>, id: Id, wallets: map<Id, Wallet>)
    requires Answers(rows, ids, wallets)
    requires id !in wallets || (rows != [] && rows[|rows| - 1].0 == id)
    ensures Answers(rows, ids + [id], wallets)
  {
    hide LastRow;
  }

  lemma TakeRow(rows: seq<WalletRow>, ids: seq<Id>, id: Id, wallets: map<Id, Wallet>)
    requires Answers(rows, ids, wallets) && forall earlier | earlier in ids :: earlier <= id
    requires id in wallets && (rows == [] || rows[|rows| - 1].0 != id)
    ensures Answers(rows + [(id, wallets[id])], ids + [id], wallets)
  {
    hide LastRow;
    if rows != [] { assert rows[|rows| - 1].0 in ids; }
    forall other
      ensures LastRow(rows + [(id, wallets[id])], other)
           == if other in ids + [id] then StoredRow(wallets, other) else None
    {
      LastRowAppend(rows, (id, wallets[id]), other);
    }
  }

  class Database {
    var wallets: map<Id, Wallet>
    var transactions: seq<Transaction>
    var ledger: seq<LedgerEntry>
    var keys: map<Slot, IdempotencyRecord>
    var outbox: seq<OutboxRow>

    // Users, and the one wallet that each may have; no call that moves money looks at them.
    var users: map<Id, UserStatus>
    var owners: map<Id, Id>

    function View(): Db
      reads this
    {
      Db(wallets, transactions, ledger, keys, outbox)
    }

    // The schema with the system user and its wallet at zero.
    constructor ()
      ensures View() == SEEDED && wallets == map[SYSTEM_WALLET_ID := Wallet(Active, 0)]
      ensures users == map[SYSTEM_USER_ID := UserActive] && owners == map[SYSTEM_USER_ID := SYSTEM_WALLET_ID]
    {
      users, owners := map[SYSTEM_USER_ID := UserActive], map[SYSTEM_USER_ID := SYSTEM_WALLET_ID];
      wallets := map[SYSTEM_WALLET_ID := Wallet(Active, 0)];
      transactions, ledger, keys, outbox := [], [], map[], [];
    }

    // ---------- Transactions of the database ----------

    method Rollback(saved: Db)
      modifies this`wallets, this`transactions, this`ledger, this`keys, this`outbox
      ensures View() == saved
    {
      wallets, transactions, ledger, keys, outbox :=
        saved.wallets, saved.transactions, saved.ledger, saved.keys, saved.outbox;
    }

    // ---------- Wallets ----------

    // Locks and reads the wallets with these ids, lowest id first; a missing wallet gives no row.
    method GetByIDsForUpdate(ids: array<Id>, fails: bool) returns (ok: bool, rows: seq<WalletRow>)
      modifies ids
      ensures ok == !fails
      ensures multiset(ids[..]) == multiset(old(ids[..])) && SortedByText(ids[..])
      ensures ok ==> Answers(rows, ids[..], wallets)
      ensures ok ==> forall id | id in old(ids[..]) :: LastRow(rows, id) == StoredRow(wallets, id)
    {
      hide SortedByText;
      SortByText(ids);
      rows := [];
      if fails { return false, []; }
      rows := Read(ids[..]);
      forall id | id in old(ids[..]) ensures id in ids[..] {
        assert id in multiset(old(ids[..]));
      }
      ok := true;
    }

    // The rows with these ids, in the order of the ids.
    method Read(ids: seq<Id>) returns (rows: seq<WalletRow>)
      requires Ascending(ids)
      ensures Answers(rows, ids, wallets)
    {
      hide Answers;
      NothingAsked(wallets);
      rows := [];
      var i := 0;
      while i < |ids|
        invariant i <= |ids|
        invariant Answers(rows, ids[..i], wallets)
      {
        var id := ids[i];
        assert ids[..i + 1] == ids[..i] + [id];
        if id in wallets && (rows == [] || rows[|rows| - 1].0 != id) {
          TakeRow(rows, ids[..i], id, wallets);
          rows := rows + [(id, wallets[id])];
        } else {
          SkipRow(rows, ids[..i], id, wallets);
        }
        i := i + 1;
      }
      assert ids[..i] == ids;
    }

    method GetUser(id: Id, fails: bool) returns (ok: bool, user: Option<UserStatus>)
      ensures ok == !fails
      ensures ok ==> user == if id in users then Some(users[id]) else None
    {
      if fails { return false, None; }
      return true, if id in users then Some(users[id]) else None;
    }

    // Inserts a wallet; the unique index on its user refuses a second one.
    method InsertWallet(user: Id, id: Id, wallet: Wallet, fails: bool) returns (ok: bool, duplicate: bool)
      modifies this`wallets, this`owners
      ensures ok == (!fails && user !in old(owners))
      ensures duplicate == (!fails && user in old(owners))
      ensures View() == if ok then ApplyWrite(old(View()), Write.SaveWallet(id, wallet)) else old(View())
      ensures owners == if ok then old(owners)[user := id] else old(owners)
    {
      if fails { return false, false; }
      if user in owners { return false, true; }
      wallets, owners := wallets[id := wallet], owners[user := id];
      return true, false;
    }

    method SaveWallet(id: Id, wallet: Wallet, fails: bool) returns (ok: bool)
      modifies this`wallets
      ensures ok == !fails
      ensures View() == if ok then ApplyWrite(old(View()), Write.SaveWallet(id, wallet)) else old(View())
    {
      if fails { return false; }
      wallets := wallets[id := wallet];
      return true;
    }

    // ---------- Transactions and ledger ----------

    // First(&row, "id = ?") with the row locked.
    method GetByIDForUpdate(id: Id, fails: bool) returns (ok: bool, row: Option<Transaction>)
      ensures ok == !fails
      ensures ok ==> row == GetTransaction(transactions, id)
    {
      if fails { return false, None; }
      return true, GetTransaction(transactions, id);
    }

    method InsertTransaction(row: Transaction, fails: bool) returns (ok: bool)
      modifies this`transactions
      ensures ok == !fails
      ensures View() == if ok then ApplyWrite(old(View()), Write.InsertTransaction(row)) else old(View())
    {
      if fails { return false; }
      transactions := transactions + [row];
      return true;
    }

    method InsertLedger(entries: seq<LedgerEntry>, fails: bool) returns (ok: bool)
      modifies this`ledger
      ensures ok == !fails
      ensures View() == if ok then ApplyWrite(old(View()), Write.InsertLedger(entries)) else old(View())
    {
      if fails { return false; }
      ledger := ledger + entries;
      return true;
    }

    // Saves a row under its primary key, inserting it if it is new.
    method SaveTransaction(row: Transaction, fails: bool) returns (ok: bool)
      modifies this`transactions
      ensures ok == !fails
      ensures View() == if ok then ApplyWrite(old(View()), Write.SaveTransaction(row)) else old(View())
    {
      if fails { return false; }
      var place := FindTransaction(transactions, row.id);
      transactions := if place.Some? then transactions[place.value := row] else transactions + [row];
      return true;
    }

    // ---------- Idempotency keys ----------

    method GetRecord(slot: Slot, fails: bool) returns (ok: bool, record: Option<IdempotencyRecord>)
      ensures ok == !fails
      ensures ok ==> record == if slot in keys then Some(keys[slot]) else None
    {
      if fails { return false, None; }
      return true, if slot in keys then Some(keys[slot]) else None;
    }

    // Inserts a record without a response; the unique index refuses a slot that is taken.
    method InsertKey(slot: Slot, request: Request, fails: bool) returns (ok: bool, duplicate: bool)
      modifies this`keys
      ensures ok == (!fails && slot !in old(keys))
      ensures duplicate == (!fails && slot in old(keys))
      ensures View() == if ok then ApplyWrite(old(View()), Write.InsertKey(slot, request)) else old(View())
    {
      if fails { return false, false; }
      if slot in keys { return false, true; }
      keys := keys[slot := IdempotencyRecord(request, None, None)];
      return true, false;
    }

    method SaveResponse(slot: Slot, response: Response, resource: Id, fails: bool) returns (ok: bool)
      modifies this`keys
      ensures ok == !fails
      ensures View() == if ok then ApplyWrite(old(View()), Write.SaveResponse(slot, response, resource))
          else old(View())
    {
      if fails { return false; }
      if slot in keys {
        keys := keys[slot := keys[slot].(response := Some(response), resource := Some(resource))];
      }
      return true;
    }

    // ---------- Outbox ----------

    method InsertOutbox(event: OutboxRow, fails: bool) returns (ok: bool)
      modifies this`outbox
      ensures ok == !fails
      ensures View() == if ok then ApplyWrite(old(View()), Write.InsertOutbox(event)) else old(View())
    {
      if fails { return false; }
      outbox := outbox + [event];
      return true;
    }

    // The places of the oldest pending events, at most limit of them.
    method FetchPending(limit: nat, fails: bool) returns (ok: bool, places: seq<nat>)
      ensures ok == !fails
      ensures ok ==> places == Outbox.FetchPending(outbox, limit)
      ensures |places| <= limit && forall k, l | 0 <= k < l < |places| :: places[k] < places[l]
      ensures ok ==> forall k | 0 <= k < |places| :: places[k] < |outbox| && outbox[places[k]].status == OutboxPending
      ensures ok ==> forall i | 0 <= i < |outbox| && outbox[i].status == OutboxPending && i !in places ::
                       |places| == limit && forall k | 0 <= k < |places| :: places[k] < i
    {
      if fails { return false, []; }
      return true, Outbox.FetchPending(outbox, limit);
    }

    method MarkPublished(place: nat, fails: bool) returns (ok: bool)
      requires place < |outbox|
      modifies this`outbox
      ensures ok == !fails
      ensures View() == if ok then Step(old(View()), DbOp.MarkPublished(place), Int64) else old(View())
      ensures ok ==> var row := old(outbox)[place];
                     outbox == old(outbox)[place := OutboxRow(row.aggregate, row.eventType, row.payload,
                                                              OutboxPublished, row.retries, None)]
    {
      if fails { return false; }
      outbox := outbox[place := outbox[place].(status := OutboxPublished, lastError := None)];
      return true;
    }

    method RecordFailure(place: nat, message: string, fails: bool) returns (ok: bool)
      requires place < |outbox|
      modifies this`outbox
      ensures ok == !fails
      ensures View() == if ok then Step(old(View()), DbOp.RecordFailure(place, message), Int64) else old(View())
      ensures ok ==> var row := old(outbox)[place];
                     outbox == old(outbox)[place := OutboxRow(row.aggregate, row.eventType, row.payload,
                                                              OutboxPending, row.retries + 1, Some(message))]
    {
      if fails { return false; }
      var event := outbox[place];
      var failed := event.(status := OutboxPending, retries := event.retries + 1, lastError := Some(message));
      outbox := outbox[place := failed];
      return true;
    }
  }

  // The balance cache in front of the wallets.
  class BalanceCache {
    var entries: map<Id, int>

    constructor ()
      ensures entries == map[]
    {
      entries := map[];
    }

    method Get(id: Id, fails: bool) returns (ok: bool, found: Option<int>)
      ensures ok == !fails
      ensures ok ==> found == if id in entries then Some(entries[id]) else None
    {
      if fails { return false, None; }
      return true, if id in entries then Some(entries[id]) else None;
    }

    method Set(id: Id, balance: int, fails: bool) returns (ok: bool)
      modifies this
      ensures ok == !fails
      ensures entries == if ok then old(entries)[id := balance] else old(entries)
    {
      if fails { return false; }
      entries := entries[id := balance];
      return true;
    }
  }
}
