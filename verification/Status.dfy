// What a wallet's status does and does not stop, and what a late save of a wallet row can undo.
module Status {
  import opened Wrappers
  import opened Uuid
  import opened Model
  import opened Engine
  import opened Books
  import opened Guarantees

  // ---------- When a wallet that is not active moves ----------

  predicate KeyUnused(db: Db, call: Call)
  {
    call.key == "" || SlotOf(call) !in db.keys
  }

  // Read off the request and the tables: a top-up draws on the system wallet whatever its status, and
  // a reversal moves money back whatever the status of its wallets, if the money is still there.
  predicate MovesInactive(db: Db, call: Call, id: Id)
  {
    KeyUnused(db, call)
    && match call.request
       case TopUpRequest(wallet, _, _) =>
         id == SYSTEM_WALLET_ID && wallet != id && wallet in db.wallets && db.wallets[wallet].status == Active
       case TransferRequest(_, _, _, _) => false
       case ReverseRequest(transaction) =>
         var original := GetTransaction(db.transactions, transaction);
         original.Some? && MovesBack(db.wallets, original.value, id)
  }

  predicate MovesBack(wallets: map<Id, Wallet>, original: Transaction, id: Id)
  {
    original.status == Completed && original.kind != Reversal
    && (original.source == Some(id) || original.destination == Some(id))
    && original.destination.Some? && original.destination.value in wallets
    && wallets[original.destination.value].balance >= original.amount
  }

  lemma InactiveTables(db: Db)
    requires Reachable(db)
    ensures RowsOk(db.transactions, db.wallets) && KeysOk(db.keys, db.transactions)
    ensures db.wallets[SYSTEM_WALLET_ID].balance <= 0
  {
    hide Reachable, RowsOk, KeysOk;
    KeyTables(db);
    SystemTables(db);
  }

  // On reachable tables a call is posted only under an unused key, and then as the checks inside the
  // database transaction say.
  lemma DecidedByJudge(db: Db, call: Call)
    requires KeysOk(db.keys, db.transactions)
    ensures Decide(db, call).Posts? <==> KeyUnused(db, call) && !SelfTransfer(call.request) && Judge(db, call).Posts?
    ensures Decide(db, call).Posts? ==> Decide(db, call) == Judge(db, call)
  {
    hide Judge, FindTransaction;
    if !KeyUnused(db, call) { assert Keeps(db.keys[SlotOf(call)], SlotOf(call), db.transactions); }
  }

  lemma PostedMoves(db: Db, call: Call, id: Id)
    requires Decide(db, call).Posts? && id in db.wallets
    requires var m := Decide(db, call).movement; m.source != m.destination && m.amount > 0
    ensures After(db, call, Unbounded).wallets[id].balance != db.wallets[id].balance
            <==> var m := Decide(db, call).movement; id == m.source || id == m.destination
  {
    hide Decide, PostRows, PostKeys, Entries, EventFor;
  }

  lemma ReversalMoves(db: Db, call: Call, id: Id)
    requires RowsOk(db.transactions, db.wallets) && call.request.ReverseRequest?
    ensures (Judge(db, call).Posts? && var m := Judge(db, call).movement; id == m.source || id == m.destination)
            <==> var original := GetTransaction(db.transactions, call.request.transaction);
                 original.Some? && MovesBack(db.wallets, original.value, id)
    ensures Judge(db, call).Posts? ==>
              var m := Judge(db, call).movement; m.source != m.destination && m.amount > 0
  {
    hide FindTransaction;
    var place := FindTransaction(db.transactions, call.request.transaction);
    if place.Some? { assert WellFormed(db.transactions[place.value], db.wallets); }
  }

  // Exactly when a call changes the balance of a wallet that is suspended or closed.
  lemma InactiveMovesIff(db: Db, call: Call, id: Id)
    requires Reachable(db) && id in db.wallets && db.wallets[id].status != Active && ValidRequest(call.request)
    ensures After(db, call, Unbounded).wallets[id].balance != db.wallets[id].balance <==> MovesInactive(db, call, id)
  {
    hide Reachable, RowsOk, KeysOk, Decide, Post, GetTransaction;
    InactiveTables(db);
    DecidedByJudge(db, call);
    if call.request.ReverseRequest? { ReversalMoves(db, call, id); }
    hide MovesBack;
    if Decide(db, call).Posts? { PostedMoves(db, call, id); }
  }

  // ---------- A closed wallet that moves ----------

  const CUSTOMER: Id := 5

  const DEPOSIT: Call := Call(TopUpRequest(CUSTOMER, 10, map[]), "", 10, 11)

  const TAKE_BACK: Call := Call(ReverseRequest(10), "", 20, 21)

  const OPENED: Db := SEEDED.(wallets := SEEDED.wallets[CUSTOMER := Wallet(Active, 0)])

  lemma OpenedIsReachable()
    ensures Reachable(OPENED) && Legal(OPENED, Money(DEPOSIT))
        && OPENED == Step(SEEDED, OpenWallet(CUSTOMER), Unbounded)
  {
    hide Reachable;
    SeededIsReachable();
    StepIsReachable(SEEDED, OpenWallet(CUSTOMER));
  }

  lemma DepositPosts()
    ensures Decide(OPENED, DEPOSIT) == Posts(Movement(TopUp, SYSTEM_WALLET_ID, CUSTOMER, 10, None, map[]))
  {
  }

  // The database after the deposit, as far as it matters here.
  lemma DepositedDb() returns (db: Db)
    ensures db == Step(OPENED, Money(DEPOSIT), Unbounded) && Reachable(db)
    ensures CUSTOMER in db.wallets && db.wallets[CUSTOMER] == Wallet(Active, 10)
    ensures GetTransaction(db.transactions, 10)
         == Some(NewTransaction(DEPOSIT, Movement(TopUp, SYSTEM_WALLET_ID, CUSTOMER, 10, None, map[])))
    ensures db.keys == map[] && Legal(db, Money(TAKE_BACK))
    ensures db.outbox
         == [EventFor(11, NewTransaction(DEPOSIT, Movement(TopUp, SYSTEM_WALLET_ID, CUSTOMER, 10, None, map[])))]
  {
    hide Reachable, Legal, Decide, GetTransaction, EventFor;
    OpenedIsReachable();
    DepositPosts();
    StepIsReachable(OPENED, Money(DEPOSIT));
    db := Step(OPENED, Money(DEPOSIT), Unbounded);
    var m := Movement(TopUp, SYSTEM_WALLET_ID, CUSTOMER, 10, None, map[]);
    assert db == Post(OPENED, DEPOSIT, m, Unbounded);
    hide Step;
    var row := NewTransaction(DEPOSIT, m);
    assert PostRows(OPENED.transactions, m.related, row) == [row];
    DepositLegal(db, row);
  }

  lemma DepositLegal(db: Db, row: Transaction)
    requires db.transactions == [row] && row.id == 10 && db.outbox == [EventFor(11, row)]
    ensures Legal(db, Money(TAKE_BACK)) && GetTransaction(db.transactions, 10) == Some(row)
  {
    hide Uuid.Text, EventText, EventFor;
    NewEventText(11, row);
    LockOrdersAgree(11, 21);
  }

  lemma Closing(db: Db)
    requires CUSTOMER in db.wallets && Legal(db, Money(TAKE_BACK))
    ensures var after := Step(db, SetStatus(CUSTOMER, Closed), Unbounded);
            && after == db.(wallets := db.wallets[CUSTOMER := db.wallets[CUSTOMER].(status := Closed)])
            && Legal(after, Money(TAKE_BACK)) && Legal(db, SetStatus(CUSTOMER, Closed))
  {
    hide GetTransaction, EventText, Uuid.Text;
  }

  lemma TakenBackMoves(db: Db)
    requires CUSTOMER in db.wallets && db.wallets[CUSTOMER] == Wallet(Closed, 10) && db.keys == map[]
    requires GetTransaction(db.transactions, 10)
          == Some(NewTransaction(DEPOSIT, Movement(TopUp, SYSTEM_WALLET_ID, CUSTOMER, 10, None, map[])))
    ensures MovesInactive(db, TAKE_BACK, CUSTOMER)
  {
    hide GetTransaction;
  }

  // A customer's wallet is filled and closed, and the deposit is then reversed: its balance changes.
  lemma ClosedWalletMoves() returns (db: Db)
    ensures Reachable(db) && Legal(db, Money(TAKE_BACK))
    ensures CUSTOMER in db.wallets && db.wallets[CUSTOMER] == Wallet(Closed, 10)
    ensures After(db, TAKE_BACK, Unbounded).wallets[CUSTOMER].balance != 10
  {
    var deposited := DepositedDb();
    Closing(deposited);
    hide Reachable, After, GetTransaction, Step, Legal, MovesInactive, ValidRequest;
    db := Step(deposited, SetStatus(CUSTOMER, Closed), Unbounded);
    StepIsReachable(deposited, SetStatus(CUSTOMER, Closed));
    TakenBackMoves(db);
    AnyReversalIsValid(TAKE_BACK);
    InactiveMovesIff(db, TAKE_BACK, CUSTOMER);
  }

  lemma AnyReversalIsValid(call: Call)
    ensures call.request.ReverseRequest? ==> ValidRequest(call.request)
  {
  }

  // ---------- A row that is saved late ----------

  // A status update that read the customer's row before the deposit and saves it after: the row it
  // read was once the row, no longer is, and saving it breaks the books.
  lemma LateSaveHappens() returns (db: Db)
    ensures Reachable(OPENED) && Legal(OPENED, Money(DEPOSIT)) && db == Step(OPENED, Money(DEPOSIT), Unbounded)
    ensures Reachable(db) && CUSTOMER in db.wallets && OPENED.wallets[CUSTOMER].balance != db.wallets[CUSTOMER].balance
    ensures var read := OPENED.wallets[CUSTOMER];
            !Sound(ApplyWrite(db, SaveWallet(CUSTOMER, read.(status := Suspended))))
  {
    hide Reachable, Legal, Step, Sound;
    OpenedIsReachable();
    db := DepositedDb();
    StaleStatusSave(db, CUSTOMER, OPENED.wallets[CUSTOMER], Suspended);
  }
}
