/** internal/transactions/service.go: the three operations, over the shared collection. */
module Service {
  import opened Model
  import opened Ledger
  import opened Protocol
  import opened Safety
  import opened Database
  import opened Repository
  import opened TxManager
  import opened ServiceSteps
  import opened Signals
  import opened Undisturbed

  /** The captured variables of the deposit and withdrawal closures. */
  class Captured {
    var newTransaction: Transaction?
    var newBalance: int

    constructor ()
      ensures newTransaction == null && newBalance == 0
    {
      newTransaction, newBalance := null, 0;
    }
  }

  /** The captured variables of the transfer closure. */
  class TransferCaptured {
    var newWithdrawalTransaction: Transaction?
    var newDepositTransaction: Transaction?
    var newReceiverBalance: int
    var newSenderBalance: int

    constructor ()
      ensures newWithdrawalTransaction == null && newDepositTransaction == null
    {
      newWithdrawalTransaction, newDepositTransaction, newReceiverBalance, newSenderBalance := null, null, 0, 0;
    }
  }

  class TransactionService {
    const collection: Collection
    const repo: MongoRepository
    const walletClient: WalletClient
    const txManager: MongoTxManager

    constructor (repo: MongoRepository, walletClient: WalletClient, txManager: MongoTxManager)
      requires repo.collection == txManager.collection == walletClient.collection && repo.collection.Valid()
      ensures Valid() && this.repo == repo && this.walletClient == walletClient && this.txManager == txManager
    {
      this.collection := repo.collection;
      this.repo := repo;
      this.walletClient := walletClient;
      this.txManager := txManager;
    }

    ghost predicate Valid()
      reads this, collection
    {
      && repo.collection == txManager.collection == walletClient.collection == collection
      && collection.Valid()
    }

    ghost predicate InRun(me: nat, req: Request)
      reads this, collection
    {
      Valid() && me in collection.Calls() && collection.Calls()[me].req == req
    }

    /** The call is at this point of a run, and all it has been told is recorded. */
    ghost predicate Running(me: nat, req: Request)
      reads this, collection
    {
      InRun(me, req) && collection.Owes(multiset{})
    }

    ghost function Me(me: nat): Call
      reads this, collection
      requires Valid() && me in collection.Calls()
    {
      collection.Calls()[me]
    }

    /* ---------- Steps shared by the callbacks ---------- */

    /** EarlyCheck, recorded as a step of the call. */
    method CheckEarly(me: nat, refID: Key, phone: Phone)
      returns (processed: Option<Row>, latest: Option<Row>, err: Option<Error>)
      requires Valid() && me in collection.Calls() && Me(me).at == Early && !ToSelf(Me(me).req)
      requires refID == Me(me).req.key && phone == Me(me).req.Owner() && collection.Owes(multiset{})
      modifies collection
      ensures Valid() && me in collection.Calls() && collection.log == old(collection.log)
      ensures collection.Owes(multiset{})
      ensures old(collection.events) <= collection.events
      ensures Me(me).req == old(Me(me).req) && Me(me).i == old(Me(me).i)
      ensures err == Some(ErrOther) ==> Me(me).at == Done(Failure(ErrOther))
      ensures err != Some(ErrOther) ==>
                && Me(me).start == Me(me).began == |collection.log|
                && (processed.Some? ==> err == None && Me(me).at == Done(ReplayOf(Me(me).req, processed)))
                && (processed.None? && latest.Some? ==>
                      && err == None && Me(me).wallet == latest.value.wallet
                      && Me(me).at == if Me(me).req.TransferRequest? then Peek else Begin)
                && (processed.None? && latest.None? ==>
                      && err == Some(ErrFirstTransaction)
                      && Me(me).at == if Me(me).req.TransferRequest? then Done(Failure(ErrInsufficientBalance))
                                      else WalletLookup)
    {
      hide Where, Run, State, Recorded, Collection.Owes, Find;
      processed, latest, err := repo.EarlyCheck(me, refID, phone);
      collection.Note(me, if err == Some(ErrOther) then Break else Go);
    }

    /** The lookup after a duplicate reference, recorded as a step of the call. */
    method FetchProcessed(me: nat, refID: Key) returns (processed: Option<Row>, err: Option<Error>)
      requires Valid() && me in collection.Calls() && Me(me).at == Replay && Me(me).req.key == refID
      requires collection.Owes(multiset{})
      modifies collection
      ensures Valid() && me in collection.Calls() && collection.log == old(collection.log)
      ensures collection.Owes(multiset{})
      ensures old(collection.events) <= collection.events && Me(me).req == old(Me(me).req)
      ensures err.Some? ==> Me(me).at == Done(Failure(err.value))
      ensures err.None? ==> processed.Some? && Me(me).at == Done(ReplayOf(Me(me).req, processed))
    {
      hide Where, Newest, Run, State, Recorded, Collection.Owes, Latest, Find;
      processed, err := repo.GetTransactionByReferenceID(me, refID, None);
      collection.Note(me, if err == Some(ErrOther) then Break else Go);
    }

    /** The answer of a deposit or withdrawal whose key was found taken. */
    method ReplayWallet(me: nat, req: Request) returns (answer: Response)
      requires Running(me, req) && Me(me).at == Replay && !req.TransferRequest?
      modifies collection
      ensures Running(me, req) && Me(me).at == Done(answer)
      ensures old(collection.log) <= collection.log && old(collection.events) <= collection.events
    {
      hide Where, Newest, Run, State, Recorded, Collection.Owes, Latest, Find;
      collection.Interfere(me);
      var processedTX, err := FetchProcessed(me, req.key);
      if err.Some? {
        return Failure(err.value);
      }
      var tx := processedTX.value;
      return WalletResponse(tx.id, tx.wallet, tx.status, tx.after);
    }

    /** The top of a retry loop with attempts left, after whatever other calls have done in the meantime. */
    method BeginAttempt(me: nat) returns (began: nat)
      requires Valid() && me in collection.Calls() && Me(me).i < MAX_RETRIES && collection.Owes(multiset{})
      requires Me(me).at == Begin || Me(me).at == FailBegin
      modifies collection
      ensures Valid() && me in collection.Calls() && began == |collection.log| && collection.Owes(multiset{})
      ensures old(collection.log) <= collection.log && old(collection.events) <= collection.events
      ensures Me(me) == old(Me(me)).(began := began, at := if old(Me(me)).at == FailBegin then FailRead else ReadOwner)
    {
      hide Where, Newest, Run, State, Recorded, Collection.Owes, Latest, Find;
      collection.Interfere(me);
      collection.Note(me, Go);
      began := |collection.log|;
    }

    /** The start of WithTransaction: a session, or the end of the call. */
    method OpenSession(me: nat) returns (session: Session, err: Option<Error>)
      requires Valid() && me in collection.Calls() && collection.Owes(multiset{})
      requires Me(me).at == ReadOwner || (Me(me).at == FailRead && Me(me).req.TransferRequest?)
      modifies collection
      ensures Valid() && me in collection.Calls() && collection.log == old(collection.log)
      ensures old(collection.events) <= collection.events && collection.Owes(multiset{})
      ensures fresh(session) && session.pending == None && (err == None || err == Some(ErrOther))
      ensures Me(me) == if err.None? then old(Me(me)) else FailWith(old(Me(me)), ErrOther)
    {
      hide Where, Newest, Run, State, Recorded, Collection.Owes, Latest, Find;
      session, err := txManager.StartSession(me);
      if err.Some? {
        collection.Note(me, Break);
      }
    }

    /** The end of the retry loops, with the transaction not sent. */
    method GiveUp(me: nat)
      requires Valid() && me in collection.Calls() && Me(me).i == MAX_RETRIES && collection.Owes(multiset{})
      requires Me(me).at == Begin || Me(me).at == FailBegin
      modifies collection
      ensures Valid() && me in collection.Calls() && collection.log == old(collection.log)
      ensures collection.Owes(multiset{})
      ensures old(collection.events) <= collection.events
      ensures Me(me) == FailWith(old(Me(me)), ErrHighFrequencyTransaction)
    {
      hide Where, Newest, Run, State, Recorded, Collection.Owes, Latest, Find;
      collection.Note(me, Go);
    }

    /** The wallet service is asked for the phone that needs a wallet. */
    method AskWallet(me: nat, phone: Phone) returns (answer: WalletAnswer)
      requires Valid() && me in collection.Calls() && collection.Owes(multiset{})
      requires Me(me).at == WalletLookup || Me(me).at == ReceiverLookup
      requires phone == LookupPhone(Me(me).req)
      modifies collection
      ensures Valid() && me in collection.Calls() && collection.log == old(collection.log)
      ensures old(collection.events) <= collection.events && collection.Owes(multiset{})
      ensures Me(me) == if old(Me(me)).at == WalletLookup then AfterWalletLookup(old(Me(me)), answer)
                        else AfterReceiverLookup(old(Me(me)), answer)
    {
      hide Where, Newest, Run, State, Recorded, Collection.Owes, Latest, Find;
      answer := walletClient.GetWalletInfo(me, phone);
      collection.Note(me, Say(answer));
    }

    /** The read of a phone's latest row inside a callback, recorded as a step of the call. */
    method ReadLatest(me: nat, phone: Phone, start: nat, began: nat)
      returns (latest: Option<Row>, err: Option<Error>, ghost k: nat)
      requires Valid() && me in collection.Calls() && collection.Owes(multiset{})
      requires var c := Me(me);
               && c.start == start <= c.began == began <= |collection.log|
               && ((c.at == ReadOwner && phone == c.req.Owner())
                   || (c.req.TransferRequest? && c.at == ReadReceiver && phone == c.req.receiver)
                   || (c.req.TransferRequest? && c.at == FailRead && phone == c.req.sender))
      modifies collection
      ensures Valid() && me in collection.Calls() && collection.log == old(collection.log)
      ensures old(collection.events) <= collection.events && collection.Owes(ToldBy(me, err))
      ensures k <= |collection.log|
      ensures err == Some(ErrOther) ==> Me(me) == old(Me(me))
      ensures err != Some(ErrOther) ==>
                && latest == Latest(collection.log[..k], phone)
                && err == (if latest.None? then Some(ErrFirstTransaction) else None)
                && Me(me) == AfterSee(collection.log, old(Me(me)), k)
    {
      hide Where, Newest, Run, State, Recorded, Collection.Owes, AfterSee, Latest;
      var seen;
      latest, err, seen := repo.GetLatestTransaction(me, phone, OldestVisible(collection.mode, start, began));
      k := seen;
      if err != Some(ErrOther) {
        collection.Note(me, See(seen));
      }
    }

    /** The insert of a callback's single row, after whatever other calls have done since it was built. */
    method InsertRow(me: nat, session: Session, tx: Transaction) returns (err: Option<Error>)
      requires Valid() && me in collection.Calls() && session.pending == None && collection.Owes(multiset{})
      requires var c := Me(me);
               tx.row == c.row && c.row.id == 0 && ((c.at == Insert && !c.req.TransferRequest?) || c.at == FailInsert)
      modifies collection, session, tx
      ensures Valid() && me in collection.Calls() && Me(me) == old(Me(me))
      ensures old(collection.log) <= collection.log && old(collection.events) <= collection.events
      ensures Returned(me, collection.log, Me(me), err, session.pending, Clashed(session))
      ensures collection.Owes(Owing(me, err, Clashed(session)))
      ensures err.None? ==> tx.row == Me(me).row.(id := WriteOf(session.pending.value).id)
      ensures err.Some? ==>
                err.value == ErrDuplicateReferenceID || err.value == ErrDuplicateSequence || err.value == ErrOther
    {
      hide Where, Newest, Run, State, Recorded, Collection.Owes, SeqTaken, RefTaken;
      collection.Interfere(me);
      err := repo.CreateTransaction(session, me, tx);
    }

    /** The insert of both legs of a transfer. */
    method InsertCoupled(me: nat, session: Session, deposit: Transaction, withdrawal: Transaction)
      returns (err: Option<Error>)
      requires Valid() && me in collection.Calls() && session.pending == None && deposit != withdrawal
      requires collection.Owes(multiset{})
      requires var c := Me(me);
               && withdrawal.row == c.row && c.row.id == 0 && deposit.row == c.credit && c.credit.id == 0
               && c.at == Insert && c.req.TransferRequest?
      modifies collection, session, deposit, withdrawal
      ensures Valid() && me in collection.Calls() && Me(me) == old(Me(me))
      ensures old(collection.log) <= collection.log && old(collection.events) <= collection.events
      ensures Returned(me, collection.log, Me(me), err, session.pending, Clashed(session))
      ensures collection.Owes(Owing(me, err, Clashed(session)))
      ensures err.None? ==> withdrawal.row == Me(me).row.(id := WriteOf(session.pending.value).id)
      ensures err.Some? ==>
                err.value == ErrDuplicateReferenceID || err.value == ErrDuplicateSequence || err.value == ErrOther
    {
      hide Where, Newest, Run, State, Recorded, Collection.Owes, SeqTaken, RefTaken;
      collection.Interfere(me);
      err := repo.CreateCoupledTransaction(session, me, deposit, withdrawal);
    }

    /* ---------- Deposit ---------- */

    method DepositCallback(me: nat, req: Request, walletID: string, vars: Captured, session: Session,
                           start: nat, began: nat)
      returns (err: Option<Error>)
      requires Running(me, req) && req.DepositRequest? && Me(me).at == ReadOwner && Me(me).wallet == walletID
      requires Me(me).start == start <= Me(me).began == began <= |collection.log|
      requires session.pending == None
      modifies collection, session, vars
      ensures InRun(me, req) && SameLoop(old(Me(me)), Me(me)) && !Recording(Me(me))
      ensures old(collection.log) <= collection.log && old(collection.events) <= collection.events
      ensures Returned(me, collection.log, Me(me), err, session.pending, Clashed(session))
      ensures collection.Owes(Owing(me, err, Clashed(session)))
      ensures err.None? ==> vars.newTransaction != null && Me(me).at == Insert
                            && vars.newTransaction.row == Me(me).row.(id := WriteOf(session.pending.value).id)
                            && vars.newBalance == Me(me).row.after
    {
      hide Where, Newest, Run, State, Recorded, Collection.Owes, Find, Enabled, Stepped, OverCapacity, Wrap, Latest,
        CanInsert, AfterSee, Draft, HitsReference, HitsSequence, Returned, Owing, ToldBy, SameLoop;
      SameLoopItself(Me(me));
      var latestTX, readErr, k := ReadLatest(me, req.phone, start, began);
      DepositRead(collection.log, old(Me(me)), k);
      if readErr.Some? && readErr.value != ErrFirstTransaction {
        StopsAtRead(me, collection.log, Me(me), readErr.value, Clashed(session));
        return readErr;
      }
      NothingTold(me, readErr);

      var newSeqNumber: nat, oldBalance: int;
      if latestTX.None? {
        newSeqNumber := 1;
        oldBalance := 0;
      } else {
        newSeqNumber := latestTX.value.seqNo + 1;
        oldBalance := latestTX.value.after;
      }
      if OverCapacity(oldBalance, req.amount) {
        StopsAtRead(me, collection.log, Me(me), ErrExceedsMaxBalance, Clashed(session));
        return Some(ErrExceedsMaxBalance);
      }
      vars.newBalance := Wrap(oldBalance + req.amount);
      var tx := new Transaction(Row(0, req.key, req.phone, "", "", Deposit, Posted, req.amount, walletID,
                                    oldBalance, vars.newBalance, newSeqNumber, ""));
      vars.newTransaction := tx;
      err := InsertRow(me, session, tx);
    }

    /** The call has answered from the captured variables of a deposit or withdrawal. */
    ghost predicate Sent(vars: Captured, walletID: string, at: Point)
      reads vars, vars.newTransaction
    {
      && vars.newTransaction != null
      && at == Done(WalletResponse(vars.newTransaction.row.id, walletID, Posted, vars.newBalance))
    }

    /** One run of the deposit closure in a session, and what the transaction manager makes of it. */
    method DepositPass(me: nat, req: Request, walletID: string, vars: Captured, session: Session,
                       start: nat, began: nat, timeLeft: bool)
      returns (err: Option<Error>, again: bool)
      requires Running(me, req) && req.DepositRequest? && Me(me).at == ReadOwner && Me(me).wallet == walletID
      requires Me(me).start == start <= Me(me).began == began <= |collection.log|
      requires session.pending == None
      modifies collection, session, vars
      ensures Running(me, req) && session.pending == None
      ensures old(collection.log) <= collection.log && old(collection.events) <= collection.events
      ensures again ==> timeLeft && SameLoop(old(Me(me)), Me(me)) && Me(me).at == ReadOwner
      ensures !again ==> Attempted(old(Me(me)), Me(me), err)
      ensures !again && err.None? ==> Sent(vars, walletID, Me(me).at)
    {
      hide Where, Newest, Run, State, Recorded, Collection.Owes, Returned, Concluded, Attempted;
      err := DepositCallback(me, req, walletID, vars, session, start, began);
      ghost var mid, log, callbackErr, pending, conflicted :=
        Me(me), collection.log, err, session.pending, Clashed(session);
      ghost var steps;
      err, again, steps := txManager.Conclude(session, me, err, timeLeft);
      if again {
        RerunSame(old(Me(me)), mid);
      } else {
        PassOutcome(me, log, old(Me(me)), mid, callbackErr, pending, conflicted, |log|, err,
                    if pending.Some? then WriteOf(pending.value).id else 0, Me(me));
      }
    }

    /** txManager.WithTransaction around the deposit closure. */
    method DepositTransaction(me: nat, req: Request, walletID: string, vars: Captured, start: nat, began: nat)
      returns (err: Option<Error>)
      requires Running(me, req) && req.DepositRequest? && Me(me).at == ReadOwner && Me(me).wallet == walletID
      requires Me(me).start == start <= Me(me).began == began <= |collection.log|
      modifies collection, vars
      ensures Running(me, req) && Attempted(old(Me(me)), Me(me), err)
      ensures old(collection.log) <= collection.log && old(collection.events) <= collection.events
      ensures err.None? ==> Sent(vars, walletID, Me(me).at)
    {
      hide Where, Newest, Run, State, Recorded, Collection.Owes, Enabled, Stepped, Latest, Find;
      var session, startErr := OpenSession(me);
      if startErr.Some? {
        return startErr;
      }
      var timeLeft: nat := *;
      while true
        invariant Running(me, req) && Me(me).at == ReadOwner && SameLoop(old(Me(me)), Me(me))
        invariant old(collection.log) <= collection.log && old(collection.events) <= collection.events
        invariant fresh(session) && session.pending == None
        decreases timeLeft
      {
        var again;
        err, again := DepositPass(me, req, walletID, vars, session, start, began, timeLeft > 0);
        if !again {
          return;
        }
        timeLeft := timeLeft - 1;
        collection.Interfere(me);
      }
    }

    /** The retry loop of the deposit: an answer if it returns from within, else whether the row was sent. */
    method SendDeposit(me: nat, req: Request, walletID: string, vars: Captured, start: nat)
      returns (answer: Option<Response>, sent: bool)
      requires Running(me, req) && req.DepositRequest? && Me(me).at == Begin && Me(me).i == 0
      requires Me(me).wallet == walletID && Me(me).start == start <= |collection.log|
      modifies collection, vars
      ensures Running(me, req)
      ensures old(collection.log) <= collection.log && old(collection.events) <= collection.events
      ensures answer.Some? ==> Me(me).at == Done(answer.value)
      ensures answer.None? && sent ==> Sent(vars, walletID, Me(me).at)
      ensures answer.None? && !sent ==> Me(me).at == Begin && Me(me).i == MAX_RETRIES
    {
      hide Where, Newest, Run, State, Recorded, Collection.Owes, Latest, Find, Enabled, Stepped;
      answer, sent := None, false;
      var i := 0;
      while i < MAX_RETRIES
        invariant Running(me, req) && Me(me).at == Begin && 0 <= i == Me(me).i <= MAX_RETRIES
        invariant Me(me).wallet == walletID && Me(me).start == start <= |collection.log|
        invariant old(collection.log) <= collection.log && old(collection.events) <= collection.events
        invariant !sent && answer.None?
      {
        var began := BeginAttempt(me);
        var err := DepositTransaction(me, req, walletID, vars, start, began);
        if err.None? {
          sent := true;
          break;
        }
        if err.value == ErrDuplicateReferenceID {
          var replayed := ReplayWallet(me, req);
          return Some(replayed), false;
        }
        if err.value == ErrDuplicateSequence {
          i := i + 1;
          continue;
        }
        return Some(Failure(err.value)), false;
      }
    }

    /** The retry loop and the answer after it. */
    method DepositLoop(me: nat, req: Request, walletID: string, start: nat) returns (answer: Response)
      requires Running(me, req) && req.DepositRequest? && Me(me).at == Begin && Me(me).i == 0
      requires Me(me).wallet == walletID && Me(me).start == start <= |collection.log|
      modifies collection
      ensures Running(me, req) && Me(me).at == Done(answer)
      ensures old(collection.log) <= collection.log && old(collection.events) <= collection.events
    {
      hide Where, Newest, Run, State, Recorded, Collection.Owes, Latest, Find, Enabled, Stepped;
      var vars := new Captured();
      var returned, sent := SendDeposit(me, req, walletID, vars, start);
      if returned.Some? {
        return returned.value;
      }
      if !sent {
        GiveUp(me);
        return Failure(ErrHighFrequencyTransaction);
      }
      return WalletResponse(vars.newTransaction.row.id, walletID, Posted, vars.newBalance);
    }

    method CreateDepositTransaction(me: nat, req: Request) returns (answer: Response)
      requires Valid() && collection.Owes(multiset{}) && me !in collection.Calls()
      requires req.DepositRequest? && req.Admitted()
      modifies collection
      ensures Running(me, req) && Me(me).at == Done(answer)
      ensures old(collection.log) <= collection.log && old(collection.events) <= collection.events
      ensures Honest(collection.log, me, req, answer)
      ensures BlamesRightly(old(collection.signals), collection.signals, me, req, answer)
      ensures collection.mode != AnyCommitted && OnlyStepsOf(collection.events, old(|collection.events|), me)
              && Untroubled(old(collection.signals), collection.signals, me) ==>
                DecidedByWorld(old(collection.log), me, req, answer, collection.log, collection.signals)
    {
      hide Where, Newest, Run, State, Recorded, Latest, Find, Honest, BlamesRightly, DecidedByWorld, Untroubled,
        OnlyStepsOf;
      ghost var before, told := collection.events, collection.signals;
      assert told == Recorded(collection.mode, before);
      collection.Arrive(me, req);
      collection.Interfere(me);
      answer := DepositBody(me, req);
      assert collection.signals == Recorded(collection.mode, collection.events);
      ExecutionOutcome(collection.mode, before, collection.events, me, req);
    }

    method DepositBody(me: nat, req: Request) returns (answer: Response)
      requires Running(me, req) && req.DepositRequest? && Me(me) == NewCall(req)
      modifies collection
      ensures Running(me, req) && Me(me).at == Done(answer)
      ensures old(collection.log) <= collection.log && old(collection.events) <= collection.events
    {
      hide Where, Newest, Run, State, Recorded, Collection.Owes, Latest, Find;
      var processedTX, latestTX, err := CheckEarly(me, req.key, req.phone);
      var start := |collection.log|;
      if err.Some? && err.value != ErrFirstTransaction {
        answer := Failure(err.value);
        return;
      }
      if processedTX.Some? {
        var tx := processedTX.value;
        answer := WalletResponse(tx.id, tx.wallet, tx.status, tx.after);
        return;
      }

      var walletID := "";
      if latestTX.None? {
        collection.Interfere(me);
        var walletRes := AskWallet(me, req.phone);
        if !walletRes.Wallet? {
          answer := Failure(if walletRes.NoWallet? then ErrWalletNotFound else ErrOther);
          return;
        }
        walletID := walletRes.id;
      } else {
        walletID := latestTX.value.wallet;
      }
      answer := DepositLoop(me, req, walletID, start);
    }

    /* ---------- Withdrawal ---------- */

    method WithdrawalCallback(me: nat, req: Request, walletID: string, vars: Captured, session: Session,
                           start: nat, began: nat)
      returns (err: Option<Error>)
      requires Running(me, req) && req.WithdrawalRequest? && Me(me).at == ReadOwner && Me(me).wallet == walletID
      requires Me(me).start == start <= Me(me).began == began <= |collection.log|
      requires session.pending == None
      modifies collection, session, vars
      ensures InRun(me, req) && SameLoop(old(Me(me)), Me(me)) && !Recording(Me(me))
      ensures old(collection.log) <= collection.log && old(collection.events) <= collection.events
      ensures Returned(me, collection.log, Me(me), err, session.pending, Clashed(session))
      ensures collection.Owes(Owing(me, err, Clashed(session)))
      ensures err.None? ==> vars.newTransaction != null && Me(me).at == Insert
                            && vars.newTransaction.row == Me(me).row.(id := WriteOf(session.pending.value).id)
                            && vars.newBalance == Me(me).row.after
    {
      hide Where, Newest, Run, State, Recorded, Collection.Owes, Find, Enabled, Stepped, Insufficient, Wrap, Latest,
        CanInsert, AfterSee, Draft, HitsReference, HitsSequence, Returned, Owing, ToldBy, SameLoop;
      SameLoopItself(Me(me));
      var latestTX, readErr, k := ReadLatest(me, req.phone, start, began);
      WithdrawalRead(collection.log, old(Me(me)), k);
      if readErr.Some? && readErr.value != ErrFirstTransaction {
        StopsAtRead(me, collection.log, Me(me), readErr.value, Clashed(session));
        return readErr;
      }
      NothingTold(me, readErr);

      var newSeqNumber: nat, oldBalance: int;
      if latestTX.None? {
        newSeqNumber := 1;
        oldBalance := 0;
      } else {
        newSeqNumber := latestTX.value.seqNo + 1;
        oldBalance := latestTX.value.after;
      }
      if Insufficient(oldBalance, req.amount) {
        StopsAtRead(me, collection.log, Me(me), ErrInsufficientBalance, Clashed(session));
        return Some(ErrInsufficientBalance);
      }
      vars.newBalance := Wrap(oldBalance - req.amount);
      var tx := new Transaction(Row(0, req.key, req.phone, "", "", Withdrawal, Posted, req.amount, walletID,
                                    oldBalance, vars.newBalance, newSeqNumber, ""));
      vars.newTransaction := tx;
      err := InsertRow(me, session, tx);
    }

    /** One run of the withdrawal closure in a session, and what the transaction manager makes of it. */
    method WithdrawalPass(me: nat, req: Request, walletID: string, vars: Captured, session: Session,
                       start: nat, began: nat, timeLeft: bool)
      returns (err: Option<Error>, again: bool)
      requires Running(me, req) && req.WithdrawalRequest? && Me(me).at == ReadOwner && Me(me).wallet == walletID
      requires Me(me).start == start <= Me(me).began == began <= |collection.log|
      requires session.pending == None
      modifies collection, session, vars
      ensures Running(me, req) && session.pending == None
      ensures old(collection.log) <= collection.log && old(collection.events) <= collection.events
      ensures again ==> timeLeft && SameLoop(old(Me(me)), Me(me)) && Me(me).at == ReadOwner
      ensures !again ==> Attempted(old(Me(me)), Me(me), err)
      ensures !again && err.None? ==> Sent(vars, walletID, Me(me).at)
    {
      hide Where, Newest, Run, State, Recorded, Collection.Owes, Returned, Concluded, Attempted;
      err := WithdrawalCallback(me, req, walletID, vars, session, start, began);
      ghost var mid, log, callbackErr, pending, conflicted :=
        Me(me), collection.log, err, session.pending, Clashed(session);
      ghost var steps;
      err, again, steps := txManager.Conclude(session, me, err, timeLeft);
      if again {
        RerunSame(old(Me(me)), mid);
      } else {
        PassOutcome(me, log, old(Me(me)), mid, callbackErr, pending, conflicted, |log|, err,
                    if pending.Some? then WriteOf(pending.value).id else 0, Me(me));
      }
    }

    /** txManager.WithTransaction around the withdrawal closure. */
    method WithdrawalTransaction(me: nat, req: Request, walletID: string, vars: Captured, start: nat, began: nat)
      returns (err: Option<Error>)
      requires Running(me, req) && req.WithdrawalRequest? && Me(me).at == ReadOwner && Me(me).wallet == walletID
      requires Me(me).start == start <= Me(me).began == began <= |collection.log|
      modifies collection, vars
      ensures Running(me, req) && Attempted(old(Me(me)), Me(me), err)
      ensures old(collection.log) <= collection.log && old(collection.events) <= collection.events
      ensures err.None? ==> Sent(vars, walletID, Me(me).at)
    {
      hide Where, Newest, Run, State, Recorded, Collection.Owes, Enabled, Stepped, Latest, Find;
      var session, startErr := OpenSession(me);
      if startErr.Some? {
        return startErr;
      }
      var timeLeft: nat := *;
      while true
        invariant Running(me, req) && Me(me).at == ReadOwner && SameLoop(old(Me(me)), Me(me))
        invariant old(collection.log) <= collection.log && old(collection.events) <= collection.events
        invariant fresh(session) && session.pending == None
        decreases timeLeft
      {
        var again;
        err, again := WithdrawalPass(me, req, walletID, vars, session, start, began, timeLeft > 0);
        if !again {
          return;
        }
        timeLeft := timeLeft - 1;
        collection.Interfere(me);
      }
    }

    /** The retry loop of the withdrawal: an answer if it returns from within, else whether the row was sent. */
    method SendWithdrawal(me: nat, req: Request, walletID: string, vars: Captured, start: nat)
      returns (answer: Option<Response>, sent: bool)
      requires Running(me, req) && req.WithdrawalRequest? && Me(me).at == Begin && Me(me).i == 0
      requires Me(me).wallet == walletID && Me(me).start == start <= |collection.log|
      modifies collection, vars
      ensures Running(me, req)
      ensures old(collection.log) <= collection.log && old(collection.events) <= collection.events
      ensures answer.Some? ==> Me(me).at == Done(answer.value)
      ensures answer.None? && sent ==> Sent(vars, walletID, Me(me).at)
      ensures answer.None? && !sent ==> Me(me).at == Begin && Me(me).i == MAX_RETRIES
    {
      hide Where, Newest, Run, State, Recorded, Collection.Owes, Latest, Find, Enabled, Stepped;
      answer, sent := None, false;
      var i := 0;
      while i < MAX_RETRIES
        invariant Running(me, req) && Me(me).at == Begin && 0 <= i == Me(me).i <= MAX_RETRIES
        invariant Me(me).wallet == walletID && Me(me).start == start <= |collection.log|
        invariant old(collection.log) <= collection.log && old(collection.events) <= collection.events
        invariant !sent && answer.None?
      {
        var began := BeginAttempt(me);
        var err := WithdrawalTransaction(me, req, walletID, vars, start, began);
        if err.None? {
          sent := true;
          break;
        }
        if err.value == ErrDuplicateReferenceID {
          var replayed := ReplayWallet(me, req);
          return Some(replayed), false;
        }
        if err.value == ErrDuplicateSequence {
          i := i + 1;
          continue;
        }
        return Some(Failure(err.value)), false;
      }
    }

    /** The retry loop and the answer after it. */
    method WithdrawalLoop(me: nat, req: Request, walletID: string, start: nat) returns (answer: Response)
      requires Running(me, req) && req.WithdrawalRequest? && Me(me).at == Begin && Me(me).i == 0
      requires Me(me).wallet == walletID && Me(me).start == start <= |collection.log|
      modifies collection
      ensures Running(me, req) && Me(me).at == Done(answer)
      ensures old(collection.log) <= collection.log && old(collection.events) <= collection.events
    {
      hide Where, Newest, Run, State, Recorded, Collection.Owes, Latest, Find, Enabled, Stepped;
      var vars := new Captured();
      var returned, sent := SendWithdrawal(me, req, walletID, vars, start);
      if returned.Some? {
        return returned.value;
      }
      if !sent {
        GiveUp(me);
        return Failure(ErrHighFrequencyTransaction);
      }
      return WalletResponse(vars.newTransaction.row.id, walletID, Posted, vars.newBalance);
    }

    method CreateWithdrawalTransaction(me: nat, req: Request) returns (answer: Response)
      requires Valid() && collection.Owes(multiset{}) && me !in collection.Calls()
      requires req.WithdrawalRequest? && req.Admitted()
      modifies collection
      ensures Running(me, req) && Me(me).at == Done(answer)
      ensures old(collection.log) <= collection.log && old(collection.events) <= collection.events
      ensures Honest(collection.log, me, req, answer)
      ensures BlamesRightly(old(collection.signals), collection.signals, me, req, answer)
      ensures collection.mode != AnyCommitted && OnlyStepsOf(collection.events, old(|collection.events|), me)
              && Untroubled(old(collection.signals), collection.signals, me) ==>
                DecidedByWorld(old(collection.log), me, req, answer, collection.log, collection.signals)
    {
      hide Where, Newest, Run, State, Recorded, Latest, Find, Honest, BlamesRightly, DecidedByWorld, Untroubled,
        OnlyStepsOf;
      ghost var before, told := collection.events, collection.signals;
      assert told == Recorded(collection.mode, before);
      collection.Arrive(me, req);
      collection.Interfere(me);
      answer := WithdrawalBody(me, req);
      assert collection.signals == Recorded(collection.mode, collection.events);
      ExecutionOutcome(collection.mode, before, collection.events, me, req);
    }

    method WithdrawalBody(me: nat, req: Request) returns (answer: Response)
      requires Running(me, req) && req.WithdrawalRequest? && Me(me) == NewCall(req)
      modifies collection
      ensures Running(me, req) && Me(me).at == Done(answer)
      ensures old(collection.log) <= collection.log && old(collection.events) <= collection.events
    {
      hide Where, Newest, Run, State, Recorded, Collection.Owes, Latest, Find;
      var processedTX, latestTX, err := CheckEarly(me, req.key, req.phone);
      var start := |collection.log|;
      if err.Some? && err.value != ErrFirstTransaction {
        answer := Failure(err.value);
        return;
      }
      if processedTX.Some? {
        var tx := processedTX.value;
        answer := WalletResponse(tx.id, tx.wallet, tx.status, tx.after);
        return;
      }

      var walletID := "";
      if latestTX.None? {
        collection.Interfere(me);
        var walletRes := AskWallet(me, req.phone);
        answer := Failure(if walletRes.NoWallet? then ErrWalletNotFound
                          else if walletRes.WalletFailure? then ErrOther
                          else ErrInsufficientBalance);
        return;
      } else {
        walletID := latestTX.value.wallet;
      }
      answer := WithdrawalLoop(me, req, walletID, start);
    }

    /* ---------- Transfer ---------- */

    method TransferCallback(me: nat, req: Request, senderWalletID: string, receiverWalletID: string,
                            vars: TransferCaptured, session: Session, start: nat, began: nat)
      returns (err: Option<Error>)
      requires Running(me, req) && req.TransferRequest? && Me(me).at == ReadOwner
      requires Me(me).wallet == senderWalletID && Me(me).receiverWallet == receiverWalletID
      requires Me(me).start == start <= Me(me).began == began <= |collection.log|
      requires session.pending == None
      modifies collection, session, vars
      ensures InRun(me, req) && SameLoop(old(Me(me)), Me(me)) && Me(me).at != FailRead && Me(me).at != FailInsert
      ensures old(collection.log) <= collection.log && old(collection.events) <= collection.events
      ensures Returned(me, collection.log, Me(me), err, session.pending, Clashed(session))
      ensures collection.Owes(Owing(me, err, Clashed(session)))
      ensures Me(me).at == FailBegin <==> err == Some(ErrExceedsMaxBalance)
      ensures Me(me).at == FailBegin ==> Me(me).i == 0
      ensures err.None? ==> vars.newWithdrawalTransaction != null && Me(me).at == Insert
                            && vars.newWithdrawalTransaction.row == Me(me).row.(id := WriteOf(session.pending.value).id)
                            && vars.newSenderBalance == Me(me).row.after
    {
      hide Where, Newest, Run, State, Recorded, Collection.Owes, Find, Enabled, Stepped, Returned, OverCapacity,
        Insufficient, Wrap, Latest, CanInsert, AfterSee, Draft, HitsReference, HitsSequence, Owing, ToldBy;
      var latestSenderTX, senderErr, k := ReadLatest(me, req.sender, start, began);
      DebitRead(collection.log, old(Me(me)), k);
      if senderErr.Some? {
        StopsAtRead(me, collection.log, Me(me), senderErr.value, Clashed(session));
        return senderErr;
      }
      NothingTold(me, senderErr);
      var newSenderSeqNumber := latestSenderTX.value.seqNo + 1;
      var oldSenderBalance := latestSenderTX.value.after;
      if Insufficient(oldSenderBalance, req.amount) {
        StopsAtRead(me, collection.log, Me(me), ErrInsufficientBalance, Clashed(session));
        return Some(ErrInsufficientBalance);
      }
      vars.newSenderBalance := Wrap(oldSenderBalance - req.amount);
      var withdrawal := new Transaction(Row(0, req.key, req.sender, req.sender, req.receiver, Transfer, Posted,
                                            req.amount, senderWalletID, oldSenderBalance, vars.newSenderBalance,
                                            newSenderSeqNumber, ""));
      vars.newWithdrawalTransaction := withdrawal;
      collection.Interfere(me);
      err := TransferCredit(me, req, receiverWalletID, vars, withdrawal, session, start, began);
    }

    /** The second part of the closure: the deposit to the receiver, and the coupled insert. */
    method TransferCredit(me: nat, req: Request, receiverWalletID: string, vars: TransferCaptured,
                          withdrawal: Transaction, session: Session, start: nat, began: nat)
      returns (err: Option<Error>)
      requires Running(me, req) && req.TransferRequest? && Me(me).at == ReadReceiver
      requires Me(me).receiverWallet == receiverWalletID
      requires withdrawal.row == Me(me).row && Me(me).row.id == 0
      requires Me(me).start == start <= Me(me).began == began <= |collection.log|
      requires session.pending == None
      modifies collection, session, vars`newDepositTransaction, vars`newReceiverBalance, withdrawal
      ensures InRun(me, req) && SameLoop(old(Me(me)), Me(me)) && Me(me).row == old(Me(me)).row
      ensures old(collection.log) <= collection.log && old(collection.events) <= collection.events
      ensures Returned(me, collection.log, Me(me), err, session.pending, Clashed(session))
      ensures collection.Owes(Owing(me, err, Clashed(session)))
      ensures Me(me).at == ReadReceiver || Me(me).at == FailBegin || Me(me).at == Insert
      ensures Me(me).at == FailBegin <==> err == Some(ErrExceedsMaxBalance)
      ensures Me(me).at == FailBegin ==> Me(me).i == 0
      ensures err.None? ==>
                Me(me).at == Insert && withdrawal.row == Me(me).row.(id := WriteOf(session.pending.value).id)
    {
      hide Where, Newest, Run, State, Recorded, Collection.Owes, Find, Enabled, Stepped, OverCapacity, Insufficient,
        Wrap, Latest, CanInsert, AfterSee, Draft, HitsReference, HitsSequence, Returned, Owing, ToldBy, SameLoop;
      SameLoopItself(Me(me));
      var latestReceiverTX, receiverErr, k := ReadLatest(me, req.receiver, start, began);
      CreditRead(collection.log, old(Me(me)), k);
      if receiverErr.Some? && receiverErr.value != ErrFirstTransaction {
        StopsAtRead(me, collection.log, Me(me), receiverErr.value, Clashed(session));
        return receiverErr;
      }
      NothingTold(me, receiverErr);
      var newReceiverSeqNumber: nat, oldReceiverBalance: int;
      if latestReceiverTX.None? {
        newReceiverSeqNumber := 1;
        oldReceiverBalance := 0;
      } else {
        newReceiverSeqNumber := latestReceiverTX.value.seqNo + 1;
        oldReceiverBalance := latestReceiverTX.value.after;
      }
      if OverCapacity(oldReceiverBalance, req.amount) {
        StopsAtRead(me, collection.log, Me(me), ErrExceedsMaxBalance, Clashed(session));
        return Some(ErrExceedsMaxBalance);
      }
      vars.newReceiverBalance := Wrap(oldReceiverBalance + req.amount);
      var deposit := new Transaction(Row(0, req.key + DEPOSIT_SUFFIX, req.receiver, req.sender, req.receiver, Transfer,
                                         Posted, req.amount, receiverWalletID, oldReceiverBalance,
                                         vars.newReceiverBalance, newReceiverSeqNumber, ""));
      vars.newDepositTransaction := deposit;
      err := InsertCoupled(me, session, deposit, withdrawal);
    }

    method TransferPass(me: nat, req: Request, senderWalletID: string, receiverWalletID: string,
                        vars: TransferCaptured, session: Session, start: nat, began: nat, timeLeft: bool)
      returns (err: Option<Error>, again: bool)
      requires Running(me, req) && req.TransferRequest? && Me(me).at == ReadOwner
      requires Me(me).wallet == senderWalletID && Me(me).receiverWallet == receiverWalletID
      requires Me(me).start == start <= Me(me).began == began <= |collection.log|
      requires session.pending == None
      modifies collection, session, vars
      ensures Running(me, req) && session.pending == None
      ensures old(collection.log) <= collection.log && old(collection.events) <= collection.events
      ensures again ==> timeLeft && SameLoop(old(Me(me)), Me(me)) && Me(me).at == ReadOwner
      ensures !again ==> Attempted(old(Me(me)), Me(me), err)
      ensures !again && err.None? ==> TransferSent(vars, Me(me).at)
    {
      hide Where, Newest, Run, State, Recorded, Collection.Owes, Returned, Concluded, Attempted;
      err := TransferCallback(me, req, senderWalletID, receiverWalletID, vars, session, start, began);
      ghost var mid, log, callbackErr, pending, conflicted :=
        Me(me), collection.log, err, session.pending, Clashed(session);
      ghost var steps;
      err, again, steps := txManager.Conclude(session, me, err, timeLeft);
      if again {
        RerunSame(old(Me(me)), mid);
      } else {
        PassOutcome(me, log, old(Me(me)), mid, callbackErr, pending, conflicted, |log|, err,
                    if pending.Some? then WriteOf(pending.value).id else 0, Me(me));
      }
    }

    /** The call has answered from the captured variables. */
    ghost predicate TransferSent(vars: TransferCaptured, at: Point)
      reads vars, vars.newWithdrawalTransaction
    {
      && vars.newWithdrawalTransaction != null
      && var row := vars.newWithdrawalTransaction.row;
      at == Done(TransferResponse(row.id, row.wallet, Posted, vars.newSenderBalance, row.before))
    }

    /** txManager.WithTransaction around the transfer closure. */
    method TransferTransaction(me: nat, req: Request, senderWalletID: string, receiverWalletID: string,
                               vars: TransferCaptured, start: nat, began: nat)
      returns (err: Option<Error>)
      requires Running(me, req) && req.TransferRequest? && Me(me).at == ReadOwner
      requires Me(me).wallet == senderWalletID && Me(me).receiverWallet == receiverWalletID
      requires Me(me).start == start <= Me(me).began == began <= |collection.log|
      modifies collection, vars
      ensures Running(me, req) && Attempted(old(Me(me)), Me(me), err)
      ensures old(collection.log) <= collection.log && old(collection.events) <= collection.events
      ensures err.None? ==> TransferSent(vars, Me(me).at)
    {
      hide Where, Newest, Run, State, Recorded, Collection.Owes, Enabled, Stepped, Latest, Find;
      var session, startErr := OpenSession(me);
      if startErr.Some? {
        return startErr;
      }
      var timeLeft: nat := *;
      while true
        invariant Running(me, req) && Me(me).at == ReadOwner && SameLoop(old(Me(me)), Me(me))
        invariant old(collection.log) <= collection.log && old(collection.events) <= collection.events
        invariant fresh(session) && session.pending == None
        decreases timeLeft
      {
        var again;
        err, again :=
          TransferPass(me, req, senderWalletID, receiverWalletID, vars, session, start, began, timeLeft > 0);
        if !again {
          return;
        }
        timeLeft := timeLeft - 1;
        collection.Interfere(me);
      }
    }

    /* ---------- Recording a refused transfer ---------- */

    method FailureCallback(me: nat, req: Request, session: Session, start: nat, began: nat)
      returns (err: Option<Error>)
      requires Running(me, req) && req.TransferRequest? && Me(me).at == FailRead
      requires Me(me).start == start <= Me(me).began == began <= |collection.log|
      requires session.pending == None
      modifies collection, session
      ensures InRun(me, req) && SameLoop(old(Me(me)), Me(me))
      ensures Me(me).at == FailRead || Me(me).at == FailInsert || Me(me).at.Done?
      ensures old(collection.log) <= collection.log && old(collection.events) <= collection.events
      ensures Returned(me, collection.log, Me(me), err, session.pending, Clashed(session))
      ensures collection.Owes(Owing(me, err, Clashed(session)))
      ensures err != Some(ErrExceedsMaxBalance)
    {
      hide Where, Newest, Run, State, Recorded, Collection.Owes, Find, Enabled, Stepped, Latest, CanInsert,
        AfterSee, Draft, HitsReference, HitsSequence, Returned, Owing, ToldBy, SameLoop;
      SameLoopItself(Me(me));
      var latestSenderTX, senderErr, k := ReadLatest(me, req.sender, start, began);
      FailedRead(collection.log, old(Me(me)), k);
      if senderErr.Some? {
        StopsAtRead(me, collection.log, Me(me), senderErr.value, Clashed(session));
        return senderErr;
      }
      NothingTold(me, senderErr);
      var latest := latestSenderTX.value;
      var tx := new Transaction(Row(0, req.key, req.sender, req.sender, req.receiver, Transfer, Status.Failed,
                                    req.amount, latest.wallet, latest.after, latest.after, latest.seqNo + 1,
                                    "Receiver: " + EXCEEDS_REASON));
      err := InsertRow(me, session, tx);
    }

    method FailurePass(me: nat, req: Request, session: Session, start: nat, began: nat, timeLeft: bool)
      returns (err: Option<Error>, again: bool)
      requires Running(me, req) && req.TransferRequest? && Me(me).at == FailRead
      requires Me(me).start == start <= Me(me).began == began <= |collection.log|
      requires session.pending == None
      modifies collection, session
      ensures Running(me, req) && session.pending == None
      ensures old(collection.log) <= collection.log && old(collection.events) <= collection.events
      ensures again ==> timeLeft && SameLoop(old(Me(me)), Me(me)) && Me(me).at == FailRead
      ensures !again ==> RecordAttempted(old(Me(me)), Me(me), err)
    {
      hide Where, Newest, Run, State, Recorded, Collection.Owes, Returned, Concluded, RecordAttempted;
      err := FailureCallback(me, req, session, start, began);
      ghost var mid, log, callbackErr, pending, conflicted :=
        Me(me), collection.log, err, session.pending, Clashed(session);
      ghost var steps;
      err, again, steps := txManager.Conclude(session, me, err, timeLeft);
      if !again {
        RecordOutcome(me, log, old(Me(me)), mid, callbackErr, pending, conflicted, |log|, err,
                      if pending.Some? then WriteOf(pending.value).id else 0, Me(me));
      }
    }

    /** txManager.WithTransaction around the closure that records the failure. */
    method FailureTransaction(me: nat, req: Request, start: nat, began: nat) returns (err: Option<Error>)
      requires Running(me, req) && req.TransferRequest? && Me(me).at == FailRead
      requires Me(me).start == start <= Me(me).began == began <= |collection.log|
      modifies collection
      ensures Running(me, req) && RecordAttempted(old(Me(me)), Me(me), err)
      ensures old(collection.log) <= collection.log && old(collection.events) <= collection.events
    {
      hide Where, Newest, Run, State, Recorded, Collection.Owes, Enabled, Stepped, Latest, Find;
      var session, startErr := OpenSession(me);
      if startErr.Some? {
        return startErr;
      }
      var timeLeft: nat := *;
      while true
        invariant Running(me, req) && Me(me).at == FailRead && SameLoop(old(Me(me)), Me(me))
        invariant old(collection.log) <= collection.log && old(collection.events) <= collection.events
        invariant fresh(session) && session.pending == None
        decreases timeLeft
      {
        var again;
        err, again := FailurePass(me, req, session, start, began, timeLeft > 0);
        if !again {
          return;
        }
        timeLeft := timeLeft - 1;
        collection.Interfere(me);
      }
    }

    /** The second retry loop: an answer if it returns from within, else whether the row was sent. */
    method RecordFailure(me: nat, req: Request, start: nat) returns (answer: Option<Response>, sent: bool)
      requires Running(me, req) && req.TransferRequest? && Me(me).at == FailBegin && Me(me).i == 0
      requires Me(me).start == start <= |collection.log|
      modifies collection
      ensures Running(me, req)
      ensures old(collection.log) <= collection.log && old(collection.events) <= collection.events
      ensures answer.Some? ==> Me(me).at == Done(answer.value)
      ensures answer.None? && sent ==> Me(me).at == Done(Failure(ErrHalfTransferFail))
      ensures answer.None? && !sent ==> Me(me).at == FailBegin && Me(me).i == MAX_RETRIES
    {
      hide Where, Newest, Run, State, Recorded, Collection.Owes, Latest, Find, Enabled, Stepped;
      answer, sent := None, false;
      var i := 0;
      while i < MAX_RETRIES
        invariant Running(me, req) && Me(me).at == FailBegin && 0 <= i == Me(me).i <= MAX_RETRIES
        invariant Me(me).start == start <= |collection.log|
        invariant old(collection.log) <= collection.log && old(collection.events) <= collection.events
        invariant !sent && answer.None?
      {
        var began := BeginAttempt(me);
        var err := FailureTransaction(me, req, start, began);
        if err.None? {
          sent := true;
          break;
        }
        if err.value == ErrDuplicateReferenceID {
          return Some(Failure(ErrHalfTransferFail)), false;
        }
        if err.value == ErrDuplicateSequence {
          i := i + 1;
          continue;
        }
        return Some(Failure(err.value)), false;
      }
    }

    /** The answer of a transfer whose key, or whose receiver leg's, was found taken. */
    method ReplayTransfer(me: nat, req: Request) returns (answer: Response)
      requires Running(me, req) && Me(me).at == Replay && req.TransferRequest?
      modifies collection
      ensures Running(me, req) && Me(me).at == Done(answer)
      ensures old(collection.log) <= collection.log && old(collection.events) <= collection.events
    {
      hide Where, Newest, Run, State, Recorded, Collection.Owes, Latest, Find;
      collection.Interfere(me);
      var processedTX, err := FetchProcessed(me, req.key);
      if err.Some? {
        return Failure(err.value);
      }
      var tx := processedTX.value;
      if tx.status != Posted {
        return Failure(ErrHalfTransferFail);
      }
      return TransferResponse(tx.id, tx.wallet, tx.status, tx.after, tx.before);
    }

    /** The first retry loop: an answer if it returns from within, else whether the transfer was sent and, if
        it is to be refused, why. */
    method SendTransfer(me: nat, req: Request, senderWalletID: string, receiverWalletID: string,
                        vars: TransferCaptured, start: nat)
      returns (answer: Option<Response>, sent: bool, errReason: string)
      requires Running(me, req) && req.TransferRequest? && Me(me).at == Begin && Me(me).i == 0
      requires Me(me).wallet == senderWalletID && Me(me).receiverWallet == receiverWalletID
      requires Me(me).start == start <= |collection.log|
      modifies collection, vars
      ensures Running(me, req) && (answer.None? ==> Me(me).start == start <= |collection.log|)
      ensures old(collection.log) <= collection.log && old(collection.events) <= collection.events
      ensures answer.Some? ==> Me(me).at == Done(answer.value)
      ensures answer.None? && sent ==> errReason == "" && TransferSent(vars, Me(me).at)
      ensures answer.None? && !sent && errReason == "" ==> Me(me).at == Begin && Me(me).i == MAX_RETRIES
      ensures answer.None? && !sent && errReason != "" ==> Me(me).at == FailBegin && Me(me).i == 0
    {
      hide Where, Newest, Run, State, Recorded, Collection.Owes, Latest, Find, Enabled, Stepped;
      answer, sent, errReason := None, false, "";
      var i := 0;
      while i < MAX_RETRIES
        invariant Running(me, req) && Me(me).at == Begin && 0 <= i == Me(me).i <= MAX_RETRIES
        invariant Me(me).wallet == senderWalletID && Me(me).receiverWallet == receiverWalletID
        invariant Me(me).start == start <= |collection.log|
        invariant old(collection.log) <= collection.log && old(collection.events) <= collection.events
        invariant !sent && errReason == "" && answer.None?
      {
        var began := BeginAttempt(me);
        var err := TransferTransaction(me, req, senderWalletID, receiverWalletID, vars, start, began);
        if err.None? {
          sent := true;
          break;
        }
        if err.value == ErrDuplicateReferenceID {
          var replayed := ReplayTransfer(me, req);
          return Some(replayed), false, "";
        }
        if err.value == ErrExceedsMaxBalance {
          errReason := EXCEEDS_REASON;
          break;
        }
        if err.value == ErrDuplicateSequence {
          i := i + 1;
          continue;
        }
        return Some(Failure(err.value)), false, "";
      }
    }

    /** Both retry loops of the transfer. */
    method TransferLoops(me: nat, req: Request, senderWalletID: string, receiverWalletID: string, start: nat)
      returns (answer: Response)
      requires Running(me, req) && req.TransferRequest? && Me(me).at == Begin && Me(me).i == 0
      requires Me(me).wallet == senderWalletID && Me(me).receiverWallet == receiverWalletID
      requires Me(me).start == start <= |collection.log|
      modifies collection
      ensures Running(me, req) && Me(me).at == Done(answer)
      ensures old(collection.log) <= collection.log && old(collection.events) <= collection.events
    {
      hide Where, Newest, Run, State, Recorded, Collection.Owes;
      var vars := new TransferCaptured();
      var returned, sent, errReason := SendTransfer(me, req, senderWalletID, receiverWalletID, vars, start);
      if returned.Some? {
        return returned.value;
      }
      if errReason != "" {
        returned, sent := RecordFailure(me, req, start);
        if returned.Some? {
          return returned.value;
        }
      }
      if !sent {
        GiveUp(me);
        return Failure(ErrHighFrequencyTransaction);
      }
      if errReason != "" {
        return Failure(ErrHalfTransferFail);
      }
      return TransferResponse(vars.newWithdrawalTransaction.row.id, vars.newWithdrawalTransaction.row.wallet, Posted,
                              vars.newSenderBalance, vars.newWithdrawalTransaction.row.before);
    }

    /** The receiver's wallet id: from the receiver's history, else from the wallet service; or the answer. */
    method ReceiverWallet(me: nat, req: Request, start: nat) returns (walletID: string, failed: Option<Response>)
      requires Running(me, req) && req.TransferRequest? && Me(me).at == Peek && Me(me).i == 0
      requires Me(me).start == Me(me).began == start <= |collection.log|
      modifies collection
      ensures Running(me, req) && Me(me).start == start <= |collection.log| && Me(me).wallet == old(Me(me).wallet)
      ensures old(collection.log) <= collection.log && old(collection.events) <= collection.events
      ensures failed.Some? ==> Me(me).at == Done(failed.value)
      ensures failed.None? ==> Me(me).at == Begin && Me(me).i == 0 && Me(me).receiverWallet == walletID
    {
      hide Where, Newest, Run, State, Recorded, Collection.Owes, Latest, Find;
      walletID, failed := "", None;
      var latestReceiverTX, err, k :=
        repo.GetLatestTransaction(me, req.receiver, OldestVisible(collection.mode, start, start));
      if err == Some(ErrOther) {
        collection.Note(me, Break);
        failed := Some(Failure(ErrOther));
        return;
      }
      collection.Note(me, See(k));
      collection.Interfere(me);
      if latestReceiverTX.None? {
        var walletRes := AskWallet(me, req.receiver);
        if !walletRes.Wallet? {
          failed := Some(Failure(if walletRes.NoWallet? then ErrWalletNotFound else ErrOther));
          return;
        }
        walletID := walletRes.id;
      } else {
        walletID := latestReceiverTX.value.wallet;
      }
    }

    method CreateTransferTransaction(me: nat, req: Request) returns (answer: Response)
      requires Valid() && collection.Owes(multiset{}) && me !in collection.Calls()
      requires req.TransferRequest? && req.Admitted()
      modifies collection
      ensures Running(me, req) && Me(me).at == Done(answer)
      ensures old(collection.log) <= collection.log && old(collection.events) <= collection.events
      ensures Honest(collection.log, me, req, answer)
      ensures BlamesRightly(old(collection.signals), collection.signals, me, req, answer)
      ensures collection.mode != AnyCommitted && OnlyStepsOf(collection.events, old(|collection.events|), me)
              && Untroubled(old(collection.signals), collection.signals, me) ==>
                DecidedByWorld(old(collection.log), me, req, answer, collection.log, collection.signals)
    {
      hide Where, Newest, Run, State, Recorded, Latest, Find, Honest, BlamesRightly, DecidedByWorld, Untroubled,
        OnlyStepsOf;
      ghost var before, told := collection.events, collection.signals;
      assert told == Recorded(collection.mode, before);
      collection.Arrive(me, req);
      collection.Interfere(me);
      answer := TransferBody(me, req);
      assert collection.signals == Recorded(collection.mode, collection.events);
      ExecutionOutcome(collection.mode, before, collection.events, me, req);
    }

    method TransferBody(me: nat, req: Request) returns (answer: Response)
      requires Running(me, req) && req.TransferRequest? && Me(me) == NewCall(req)
      modifies collection
      ensures Running(me, req) && Me(me).at == Done(answer)
      ensures old(collection.log) <= collection.log && old(collection.events) <= collection.events
    {
      hide Where, Newest, Run, State, Recorded, Collection.Owes, Latest, Find;
      if req.sender == req.receiver {
        collection.Note(me, Go);
        return Failure(ErrInvalidTransactionStatus);
      }
      var processedTX, latestSenderTX, err := CheckEarly(me, req.key, req.sender);
      var start := |collection.log|;
      if err.Some? && err.value != ErrFirstTransaction {
        return Failure(err.value);
      }
      if processedTX.Some? {
        var tx := processedTX.value;
        if tx.status != Posted {
          return Failure(ErrHalfTransferFail);
        }
        return TransferResponse(tx.id, tx.wallet, tx.status, tx.after, tx.before);
      }
      if latestSenderTX.None? {
        return Failure(ErrInsufficientBalance);
      }
      var senderWalletID := latestSenderTX.value.wallet;
      collection.Interfere(me);
      var receiverWalletID, failed := ReceiverWallet(me, req, start);
      if failed.Some? {
        return failed.value;
      }
      answer := TransferLoops(me, req, senderWalletID, receiverWalletID, start);
    }
  }
}
