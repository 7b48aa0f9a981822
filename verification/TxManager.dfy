/** external/mongodb/tx_manager.go: what happens to a session once its callback has returned. The callbacks
    themselves are methods of the service; each of its WithTransaction methods runs one of them and lets
    Conclude decide whether the session commits, aborts, or runs the callback again. */
module TxManager {
  import opened Model
  import opened Ledger
  import opened Protocol
  import opened Database
  import opened Signals

  predicate Inserting(c: Call) {
    c.at == Insert || c.at == FailInsert
  }

  predicate InCallback(c: Call) {
    Inserting(c) || c.at == ReadOwner || (c.req.TransferRequest? && (c.at == ReadReceiver || c.at == FailRead))
  }

  /** Where a callback that returned err has left the call and its session. */
  predicate Returned(me: nat, log: seq<Commit>, c: Call, err: Option<Error>, pending: Option<Commit>,
                     conflicted: bool)
  {
    match err
    case None =>
      && Inserting(c) && pending.Some?
      && var w := WriteOf(pending.value);
      pending.value == Draft(me, c, w.id, w.creditId) && CanInsert(me, log, c, w)
    case Some(e) =>
      pending.None? &&
      match e
      case ErrDuplicateReferenceID => Inserting(c) && HitsReference(log, Draft(me, c, 0, 0))
      case ErrDuplicateSequence => Inserting(c) && (conflicted || HitsSequence(log, Draft(me, c, 0, 0)))
      case ErrOther => InCallback(c)
      case ErrExceedsMaxBalance => c.at == FailBegin || c.at == Done(Failure(ErrExceedsMaxBalance))
      case _ => c.at == Done(Failure(e))
  }

  /** What the call has been told, and has not yet recorded, when its callback returned err. */
  function Owing(me: nat, err: Option<Error>, conflicted: bool): multiset<Signal> {
    if err == Some(ErrOther) then multiset{OperationFailed(me)}
    else if err == Some(ErrDuplicateSequence) && conflicted then multiset{WriteClash(me)}
    else multiset{}
  }

  lemma OwingCases(me: nat, err: Option<Error>, conflicted: bool)
    ensures err == Some(ErrOther) ==> Owing(me, err, conflicted) == multiset{OperationFailed(me)}
    ensures err != Some(ErrOther) && err != Some(ErrDuplicateSequence) ==> Owing(me, err, conflicted) == multiset{}
  {
  }

  /** Where the transaction leaves the call. */
  predicate Concluded(before: Call, position: nat, err: Option<Error>, conflicted: bool, id: nat, after: Call) {
    match err
    case None => after == AfterWrite(position, before, id)
    case Some(e) =>
      match e
      case ErrDuplicateReferenceID => after == AfterDuplicateReference(before)
      case ErrDuplicateSequence => after == AfterConflict(before, conflicted)
      case ErrOther => after == FailWith(before, ErrOther)
      case _ => after == before
  }

  /** The steps the end of a callback that returned callbackErr records: its commit, its refusal by the index
      that refused it, or what the driver said. */
  predicate ConcludedBy(me: nat, callbackErr: Option<Error>, pending: Option<Commit>, conflicted: bool,
                        err: Option<Error>, again: bool, steps: seq<Event>)
  {
    if again then steps == [Act(me, Rerun)]
    else if err == Some(ErrOther) then steps == [Act(me, Break)]
    else
      err == callbackErr
      && match err
         case None => pending.Some? && steps == [Act(me, WriteOf(pending.value))]
         case Some(e) =>
           match e
           case ErrDuplicateReferenceID => steps == [Act(me, RefusedReference)]
           case ErrDuplicateSequence => steps == [Act(me, if conflicted then WriteConflict else RefusedSequence)]
           case _ => steps == []
  }

  predicate Clashed(session: Session)
    reads session
  {
    session.refusal == Some(WriteConflictError)
  }

  class MongoTxManager {
    const collection: Collection

    constructor (collection: Collection)
      ensures this.collection == collection
    {
      this.collection := collection;
    }

    /** A session for WithTransaction, or the driver's error. */
    method StartSession(me: nat) returns (session: Session, err: Option<Error>)
      requires collection.Valid() && collection.Owes(multiset{})
      modifies collection`signals
      ensures fresh(session) && session.pending == None
      ensures (err == None || err == Some(ErrOther)) && collection.Owes(Owing(me, err, false))
    {
      hide Run, State, Recorded;
      var driverErr;
      session, driverErr := collection.StartSession(me);
      err := if driverErr.Some? then Some(ErrOther) else None;
    }

    method CommitInsert(session: Session, me: nat) returns (err: Option<DriverError>)
      requires collection.Valid() && me in collection.Calls() && collection.Owes(multiset{})
      requires Returned(me, collection.log, collection.Calls()[me], None, session.pending, Clashed(session))
      modifies collection
      ensures collection.Valid() && me in collection.Calls() && collection.Owes(Told(me, err))
      ensures err == None || (err == Some(OtherDriverError) && collection.log == old(collection.log)
                              && collection.events == old(collection.events))
      ensures err.None? ==>
                && collection.log == old(collection.log) + [session.pending.value]
                && collection.events == old(collection.events) + [Act(me, WriteOf(session.pending.value))]
                && collection.Calls()[me]
                   == AfterWrite(old(|collection.log|), old(collection.Calls()[me]), WriteOf(session.pending.value).id)
    {
      hide Where, Newest, Draft, HitsReference, HitsSequence, Run, State, Recorded, AfterWrite;
      err := collection.Commit(session, me);
    }

    /** The index that refused the insert, or the conflict. */
    method NoteRefusal(session: Session, me: nat, callbackErr: Error) returns (refused: Choice)
      requires collection.Valid() && me in collection.Calls()
      requires callbackErr == ErrDuplicateReferenceID || callbackErr == ErrDuplicateSequence
      requires Returned(me, collection.log, collection.Calls()[me], Some(callbackErr), session.pending,
                        Clashed(session))
      requires collection.Owes(Owing(me, Some(callbackErr), Clashed(session)))
      modifies collection`events
      ensures collection.Valid() && me in collection.Calls() && collection.Owes(multiset{})
      ensures collection.events == old(collection.events) + [Act(me, refused)]
      ensures refused == if callbackErr == ErrDuplicateReferenceID then RefusedReference
                         else if Clashed(session) then WriteConflict else RefusedSequence
      ensures var before := old(collection.Calls()[me]);
              collection.Calls()[me] == if callbackErr == ErrDuplicateReferenceID then AfterDuplicateReference(before)
                                        else AfterConflict(before, Clashed(session))
    {
      hide Where, Newest, Draft, HitsReference, HitsSequence, Run, State, Recorded, AfterConflict,
        AfterDuplicateReference;
      refused := if callbackErr == ErrDuplicateReferenceID then RefusedReference
                 else if session.refusal == Some(WriteConflictError) then WriteConflict else RefusedSequence;
      collection.Note(me, refused);
    }

    /** After a failed operation: again if the driver takes it for transient, else its error. */
    method Abort(me: nat, timeLeft: bool) returns (err: Option<Error>, again: bool)
      requires collection.Valid() && me in collection.Calls() && InCallback(collection.Calls()[me])
      requires collection.Owes(multiset{OperationFailed(me)})
      modifies collection`events
      ensures collection.Valid() && me in collection.Calls() && collection.Owes(multiset{})
      ensures err == Some(ErrOther) && (again ==> timeLeft)
      ensures collection.events == old(collection.events) + [Act(me, if again then Rerun else Break)]
      ensures var before := old(collection.Calls()[me]);
              collection.Calls()[me] == if again then AfterRerun(before) else FailWith(before, ErrOther)
    {
      hide Where, Newest, Draft, HitsReference, HitsSequence, Run, State, Recorded;
      var transient: bool := *;
      again := transient && timeLeft;
      err := Some(ErrOther);
      collection.Note(me, if again then Rerun else Break);
    }

    /** Commits what a successful callback inserted, or aborts with the callback's error; a transient failure
        of either makes the driver run the callback again, until its time is up. The callback is run again or
        answered ErrOther only if an operation failed. */
    method Conclude(session: Session, me: nat, callbackErr: Option<Error>, timeLeft: bool)
      returns (err: Option<Error>, again: bool, ghost steps: seq<Event>)
      requires collection.Valid() && me in collection.Calls()
      requires Returned(me, collection.log, collection.Calls()[me], callbackErr, session.pending, Clashed(session))
      requires collection.Owes(Owing(me, callbackErr, Clashed(session)))
      modifies collection, session
      ensures collection.Valid() && me in collection.Calls() && collection.Owes(multiset{})
      ensures old(collection.log) <= collection.log && collection.events == old(collection.events) + steps
      ensures session.pending == None
      ensures again ==> timeLeft && InCallback(old(collection.Calls()[me]))
      ensures again ==> collection.Calls()[me] == AfterRerun(old(collection.Calls()[me]))
      ensures !again ==>
                Concluded(old(collection.Calls()[me]), old(|collection.log|), err, old(Clashed(session)),
                          if old(session.pending).Some? then WriteOf(old(session.pending).value).id else 0,
                          collection.Calls()[me])
      ensures !again && err.None? ==> callbackErr.None?
      ensures !again && err.Some? ==> err == callbackErr || err == Some(ErrOther)
      ensures ConcludedBy(me, callbackErr, old(session.pending), old(Clashed(session)), err, again, steps)
    {
      hide Where, Newest, Draft, HitsReference, HitsSequence, Run, State, Recorded, Enabled, Stepped, CanInsert,
        AfterWrite, AfterConflict, AfterRerun, AfterDuplicateReference, Owing, Collection.Owes;
      OwingCases(me, callbackErr, Clashed(session));
      err, again, steps := callbackErr, false, [];
      if callbackErr.None? {
        var driverErr := CommitInsert(session, me);
        steps := [Act(me, WriteOf(session.pending.value))];
        if driverErr.Some? {
          err, again := Abort(me, timeLeft);
          steps := [Act(me, if again then Rerun else Break)];
        }
      } else if callbackErr.value == ErrOther {
        err, again := Abort(me, timeLeft);
        steps := [Act(me, if again then Rerun else Break)];
      } else if callbackErr.value == ErrDuplicateReferenceID || callbackErr.value == ErrDuplicateSequence {
        var refused := NoteRefusal(session, me, callbackErr.value);
        steps := [Act(me, refused)];
      }
      session.pending := None;
    }
  }
}
