/** What the service's closures and the retry loops around them do to the call's state. */
module ServiceSteps {
  import opened Model
  import opened Ledger
  import opened Protocol
  import opened Safety
  import opened Database
  import opened Repository
  import opened TxManager
  import opened Signals
  import opened Undisturbed

  /** Everything of a call that its callback leaves alone. */
  predicate SameLoop(c: Call, d: Call) {
    && d.req == c.req && d.wallet == c.wallet && d.receiverWallet == c.receiverWallet
    && d.start == c.start && d.began == c.began && (d.at != FailBegin ==> d.i == c.i)
  }

  /** Where one pass through a retry loop has left the call. */
  predicate Attempted(c: Call, d: Call, err: Option<Error>) {
    && d.req == c.req && d.wallet == c.wallet && d.receiverWallet == c.receiverWallet && d.start == c.start
    && match err
       case None => d.at.Done?
       case Some(e) =>
         if e == ErrDuplicateReferenceID then d.at == Replay
         else if e == ErrDuplicateSequence then d.at == Begin && d.i == c.i + 1
         else if e == ErrExceedsMaxBalance && c.req.TransferRequest? then d.at == FailBegin && d.i == 0
         else d.at == Done(Failure(e))
  }

  lemma PassOutcome(me: nat, log: seq<Commit>, c: Call, mid: Call, callbackErr: Option<Error>, pending: Option<Commit>,
                    conflicted: bool, position: nat, err: Option<Error>, id: nat, d: Call)
    requires SameLoop(c, mid) && (Recording(mid) ==> mid.at == FailBegin && mid.i == 0 && c.req.TransferRequest?)
    requires Returned(me, log, mid, callbackErr, pending, conflicted)
    requires err.None? ==> callbackErr.None?
    requires err.Some? ==> err == callbackErr || err == Some(ErrOther)
    requires callbackErr == Some(ErrExceedsMaxBalance) ==> (mid.at == FailBegin <==> c.req.TransferRequest?)
    requires Concluded(mid, position, err, conflicted, id, d)
    ensures Attempted(c, d, err) && d.req == c.req
    ensures err.None? ==> pending.Some? && d == AfterWrite(position, mid, id)
  {
    hide HitsReference, HitsSequence, CanInsert, Draft;
  }

  lemma SameLoopItself(c: Call)
    ensures SameLoop(c, c)
  {
  }

  /** A read that did not fail has told the call nothing. */
  lemma NothingTold(me: nat, err: Option<Error>)
    requires err != Some(ErrOther)
    ensures ToldBy(me, err) == multiset{}
  {
  }

  /** A callback that stops at a read, or at what the read told it. */
  lemma StopsAtRead(me: nat, log: seq<Commit>, c: Call, error: Error, conflicted: bool)
    requires error == ErrOther || error == ErrInsufficientBalance || error == ErrFirstTransaction
             || error == ErrExceedsMaxBalance
    requires error == ErrOther ==> InCallback(c)
    requires error == ErrExceedsMaxBalance ==> c.at == FailBegin || c.at == Done(Failure(error))
    requires error == ErrInsufficientBalance || error == ErrFirstTransaction ==> c.at == Done(Failure(error))
    ensures Returned(me, log, c, Some(error), None, conflicted)
    ensures Owing(me, Some(error), conflicted) == ToldBy(me, Some(error))
    ensures error != ErrOther ==> Owing(me, Some(error), conflicted) == multiset{}
  {
  }

  lemma DepositRead(log: seq<Commit>, c: Call, k: nat)
    requires c.at == ReadOwner && c.req.DepositRequest? && k <= |log|
    ensures var d, latest := AfterSee(log, c, k), Latest(log[..k], c.req.phone);
            && SameLoop(c, d) && d.req == c.req
            && if OverCapacity(BalanceOf(latest), c.req.amount) then d.at == Done(Failure(ErrExceedsMaxBalance))
               else d.at == Insert && d.row == DepositRow(latest, c.req, c.wallet, 0)
  {
    hide Latest, OverCapacity, DepositRow;
  }

  lemma WithdrawalRead(log: seq<Commit>, c: Call, k: nat)
    requires c.at == ReadOwner && c.req.WithdrawalRequest? && k <= |log|
    ensures var d, latest := AfterSee(log, c, k), Latest(log[..k], c.req.phone);
            && SameLoop(c, d) && d.req == c.req
            && if Insufficient(BalanceOf(latest), c.req.amount) then d.at == Done(Failure(ErrInsufficientBalance))
               else d.at == Insert && d.row == WithdrawalRow(latest, c.req, c.wallet, 0)
  {
    hide Latest, Insufficient, WithdrawalRow;
  }

  lemma RerunSame(c: Call, mid: Call)
    requires SameLoop(c, mid) && InCallback(mid) && mid.at != FailRead && mid.at != FailInsert
    ensures SameLoop(c, AfterRerun(mid)) && AfterRerun(mid).at == ReadOwner
  {
  }

  /** What the caller may conclude from an answer: a success carries the one row committed under the key;
      an error other than ErrHalfTransferFail means this call committed nothing; and it never committed twice. */
  predicate Honest(log: seq<Commit>, me: nat, req: Request, answer: Response) {
    && (!answer.Failure? ==>
          var found := Find(log, WithRef(req.key));
          found.Some? && CarriesRow(answer, found.value) && answer.TransferResponse? == req.TransferRequest?)
    && (answer.Failure? && answer.error != ErrHalfTransferFail ==> forall i :: 0 <= i < |log| ==> log[i].author != me)
    && (forall i, j :: 0 <= i < |log| && 0 <= j < |log| && log[i].author == log[j].author == me ==> i == j)
  }

  lemma AnswerIsHonest(mode: ReadConcern, events: seq<Event>, me: nat)
    requires Run(mode, events) && me in State(mode, events).calls && State(mode, events).calls[me].at.Done?
    ensures var c := State(mode, events).calls[me];
            Honest(State(mode, events).log, me, c.req, c.at.answer)
  {
    hide Where, Newest, Run, State, Built, Balance;
    RunCallOk(mode, events, me);
  }

  /** What the signals say of an answer that blames the outside: during the call one of its own operations
      failed, or the wallet service failed it or knew no wallet for the phone that needs one. */
  predicate BlamesRightly(before: multiset<Signal>, after: multiset<Signal>, me: nat, req: Request, answer: Response) {
    && (answer == Failure(ErrOther) ==>
          || before[OperationFailed(me)] < after[OperationFailed(me)]
          || before[WalletSaid(me, LookupPhone(req), WalletFailure)]
             < after[WalletSaid(me, LookupPhone(req), WalletFailure)])
    && (answer == Failure(ErrWalletNotFound) ==>
          before[WalletSaid(me, LookupPhone(req), NoWallet)] < after[WalletSaid(me, LookupPhone(req), NoWallet)])
  }

  predicate OnlyStepsOf(events: seq<Event>, n: nat, me: nat) {
    forall i :: n <= i < |events| ==> events[i].call == me
  }

  /** What an execution whose history is this run says of the value it returns. */
  lemma ExecutionOutcome(mode: ReadConcern, before: seq<Event>, events: seq<Event>, me: nat, req: Request)
    requires Run(mode, before) && me !in State(mode, before).calls
    requires Run(mode, events) && before + [Arrive(me, req)] <= events
    requires me in State(mode, events).calls && State(mode, events).calls[me].at.Done?
    requires State(mode, events).calls[me].req == req
    ensures var c := State(mode, events).calls[me];
            && Honest(State(mode, events).log, me, req, c.at.answer)
            && BlamesRightly(Recorded(mode, before), Recorded(mode, events), me, req, c.at.answer)
            && (mode != AnyCommitted && OnlyStepsOf(events, |before|, me)
                && Untroubled(Recorded(mode, before), Recorded(mode, events), me) ==>
                  DecidedByWorld(State(mode, before).log, me, req, c.at.answer, State(mode, events).log,
                                 Recorded(mode, events)))
  {
    hide Run, State, Recorded, Honest, DecidedByWorld, Possible, Untroubled;
    AnswerIsHonest(mode, events, me);
    NothingBeforeArrival(mode, before, me);
    NoBlameWithoutCause(mode, events, me);
    assert events[..|before|] == before && events[|before|] == Arrive(me, req);
    if mode != AnyCommitted && OnlyStepsOf(events, |before|, me)
       && Untroubled(Recorded(mode, before), Recorded(mode, events), me) {
      UntroubledIsDecided(mode, events, |before|, me, req);
    }
  }

  lemma DebitRead(log: seq<Commit>, c: Call, k: nat)
    requires c.at == ReadOwner && c.req.TransferRequest? && k <= |log|
    ensures var d, latest := AfterSee(log, c, k), Latest(log[..k], c.req.sender);
            && SameLoop(c, d) && d.req == c.req
            && if latest.None? then d.at == Done(Failure(ErrFirstTransaction))
               else if Insufficient(latest.value.after, c.req.amount) then d.at == Done(Failure(ErrInsufficientBalance))
               else d.at == ReadReceiver && d.row == DebitRow(latest, c.req, c.wallet, 0)
  {
    hide Latest, Insufficient, DebitRow;
  }

  lemma CreditRead(log: seq<Commit>, c: Call, k: nat)
    requires c.at == ReadReceiver && c.req.TransferRequest? && k <= |log|
    ensures var d, latest := AfterSee(log, c, k), Latest(log[..k], c.req.receiver);
            && SameLoop(c, d) && d.req == c.req && d.row == c.row
            && if OverCapacity(BalanceOf(latest), c.req.amount) then d.at == FailBegin && d.i == 0
               else d.at == Insert && d.credit == CreditRow(latest, c.req, c.receiverWallet, 0)
  {
    hide Latest, OverCapacity, CreditRow;
  }

  lemma FailedRead(log: seq<Commit>, c: Call, k: nat)
    requires c.at == FailRead && c.req.TransferRequest? && k <= |log|
    ensures var d, latest := AfterSee(log, c, k), Latest(log[..k], c.req.sender);
            && SameLoop(c, d) && d.req == c.req
            && if latest.None? then d.at == Done(Failure(ErrFirstTransaction))
               else d.at == FailInsert && d.row == FailedRow(latest.value, c.req, 0)
  {
    hide Latest, FailedRow;
  }

  /** Where one pass through the loop that records the failure has left the call. */
  predicate RecordAttempted(c: Call, d: Call, err: Option<Error>) {
    && d.req == c.req && d.start == c.start
    && match err
       case None => d.at == Done(Failure(ErrHalfTransferFail))
       case Some(e) =>
         if e == ErrDuplicateReferenceID then d.at == Done(Failure(ErrHalfTransferFail))
         else if e == ErrDuplicateSequence then d.at == FailBegin && d.i == c.i + 1
         else d.at == Done(Failure(e))
  }

  lemma RecordOutcome(me: nat, log: seq<Commit>, c: Call, mid: Call, callbackErr: Option<Error>,
                      pending: Option<Commit>, conflicted: bool, position: nat, err: Option<Error>, id: nat, d: Call)
    requires SameLoop(c, mid) && (mid.at == FailRead || mid.at == FailInsert || mid.at.Done?)
    requires Returned(me, log, mid, callbackErr, pending, conflicted) && callbackErr != Some(ErrExceedsMaxBalance)
    requires err.None? ==> callbackErr.None?
    requires err.Some? ==> err == callbackErr || err == Some(ErrOther)
    requires Concluded(mid, position, err, conflicted, id, d)
    ensures RecordAttempted(c, d, err) && d.req == c.req
  {
    hide HitsReference, HitsSequence, CanInsert, Draft;
  }
}
