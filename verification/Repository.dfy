/** external/mongodb/repo.go: the queries and inserts of the service, with their error classification. */
module Repository {
  import opened Model
  import opened Ledger
  import opened Protocol
  import opened Database
  import opened Signals

  /** The Transaction a pointer of the service points to. */
  class Transaction {
    var row: Row

    constructor (row: Row)
      ensures this.row == row
    {
      this.row := row;
    }
  }

  class MongoRepository {
    const collection: Collection

    constructor (collection: Collection)
      ensures this.collection == collection
    {
      this.collection := collection;
    }

    /** Inserts one row and writes the generated id through the pointer. Each refusal is reported as what the
        driver said it was. */
    method CreateTransaction(session: Session, me: nat, transaction: Transaction) returns (err: Option<Error>)
      requires collection.Valid() && collection.Owes(multiset{}) && session.pending == None
      modifies collection`signals, session, transaction
      ensures collection.Owes(Told(me, session.refusal)) && Reported(session.refusal, err)
      ensures var batch := One(me, old(transaction.row));
              match err
              case None =>
                && transaction.row == old(transaction.row).(id := transaction.row.id)
                && session.pending == Some(One(me, transaction.row))
                && !HitsReference(collection.log, batch) && !HitsSequence(collection.log, batch)
              case Some(e) =>
                && transaction.row == old(transaction.row) && session.pending == None
                && (e == ErrDuplicateReferenceID ==> HitsReference(collection.log, batch))
                && (e == ErrDuplicateSequence ==>
                      session.refusal == Some(WriteConflictError) || HitsSequence(collection.log, batch))
    {
      hide HitsReference, HitsSequence, Run, State, Recorded;
      var driverErr, id := collection.InsertOne(me, session, transaction.row);
      if driverErr.Some? {
        return Some(Classify(driverErr.value));
      }
      transaction.row := transaction.row.(id := id);
      return None;
    }

    /** Inserts both legs of a transfer, deposit leg first, and writes both ids. */
    method CreateCoupledTransaction(session: Session, me: nat, deposit: Transaction, withdrawal: Transaction)
      returns (err: Option<Error>)
      requires collection.Valid() && collection.Owes(multiset{}) && session.pending == None && deposit != withdrawal
      modifies collection`signals, session, deposit, withdrawal
      ensures collection.Owes(Told(me, session.refusal)) && Reported(session.refusal, err)
      ensures var batch := Two(me, old(withdrawal.row), old(deposit.row));
              match err
              case None =>
                && deposit.row == old(deposit.row).(id := deposit.row.id)
                && withdrawal.row == old(withdrawal.row).(id := withdrawal.row.id)
                && session.pending == Some(Two(me, withdrawal.row, deposit.row))
                && !HitsReference(collection.log, batch) && !HitsSequence(collection.log, batch)
              case Some(e) =>
                && deposit.row == old(deposit.row) && withdrawal.row == old(withdrawal.row) && session.pending == None
                && (e == ErrDuplicateReferenceID ==> HitsReference(collection.log, batch))
                && (e == ErrDuplicateSequence ==>
                      session.refusal == Some(WriteConflictError) || HitsSequence(collection.log, batch))
    {
      hide HitsReference, HitsSequence, Run, State, Recorded;
      var driverErr, depositId, withdrawalId := collection.InsertMany(me, session, deposit.row, withdrawal.row);
      if driverErr.Some? {
        return Some(Classify(driverErr.value));
      }
      deposit.row := deposit.row.(id := depositId);
      withdrawal.row := withdrawal.row.(id := withdrawalId);
      return None;
    }

    /** The latest row of the phone in a committed state no older than asked for; `k` tells which. ErrOther only
        if the driver failed. */
    method GetLatestTransaction(me: nat, phone: Phone, oldest: nat)
      returns (latest: Option<Row>, err: Option<Error>, k: nat)
      requires collection.Valid() && collection.Owes(multiset{}) && oldest <= |collection.log|
      modifies collection`signals
      ensures oldest <= k <= |collection.log| && collection.Owes(ToldBy(me, err))
      ensures err == Some(ErrOther) ==> latest == None
      ensures err != Some(ErrOther) ==>
                && latest == Latest(collection.log[..k], phone)
                && err == if latest.None? then Some(ErrFirstTransaction) else None
    {
      hide Where, Newest, Run, State, Recorded;
      var row, driverErr, seen := collection.FindLatest(me, phone, oldest);
      k := seen;
      if driverErr.Some? {
        if driverErr.value == NoDocuments {
          return None, Some(ErrFirstTransaction), k;
        }
        return None, Some(ErrOther), k;
      }
      return row, None, k;
    }

    method GetTransactionByReferenceID(me: nat, referenceID: Key, optionalPhone: Option<Phone>)
      returns (transaction: Option<Row>, err: Option<Error>)
      requires collection.Valid() && collection.Owes(multiset{})
      modifies collection`signals
      ensures collection.Owes(ToldBy(me, err))
      ensures err == Some(ErrOther) ==> transaction == None
      ensures err != Some(ErrOther) ==>
                && transaction == Find(collection.log,
                                       if optionalPhone.Some? then RefOn(referenceID, optionalPhone.value)
                                       else WithRef(referenceID))
                && err == if transaction.None? then Some(ErrTransactionNotFound) else None
    {
      hide Where, Run, State, Recorded;
      var filter := WithRef(referenceID);
      if optionalPhone.Some? {
        filter := RefOn(referenceID, optionalPhone.value);
      }
      var row, driverErr := collection.FindOne(me, filter);
      if driverErr.Some? {
        if driverErr.value == NoDocuments {
          return None, Some(ErrTransactionNotFound);
        }
        return None, Some(ErrOther);
      }
      return row, None;
    }

    /** One aggregation: the row under this key on this phone, else the phone's latest row;
        ErrFirstTransaction exactly when the phone has no rows, ErrOther only if the driver failed. */
    method EarlyCheck(me: nat, refID: Key, phone: Phone)
      returns (processed: Option<Row>, latest: Option<Row>, err: Option<Error>)
      requires collection.Valid() && collection.Owes(multiset{})
      modifies collection`signals
      ensures collection.Owes(ToldBy(me, err))
      ensures err == Some(ErrOther) ==> processed == None && latest == None
      ensures err != Some(ErrOther) ==> processed == Find(collection.log, RefOn(refID, phone))
      ensures err != Some(ErrOther) && processed.Some? ==> latest == None && err == None
      ensures err != Some(ErrOther) && processed.None? ==>
                && latest == Latest(collection.log, phone)
                && (err == Some(ErrFirstTransaction) <==> Where(collection.log, OnPhone(phone)) == [])
                && (err == None <==> latest.Some?)
    {
      hide Run, State, Recorded;
      var byRef, newest, driverErr := collection.Aggregate(me, refID, phone);
      if driverErr.Some? {
        return None, None, Some(ErrOther);
      }
      if byRef.Some? {
        return byRef, None, None;
      }
      if newest.Some? {
        return None, newest, None;
      }
      return None, None, Some(ErrFirstTransaction);
    }
  }

  /** What a call has been told when a read of the repository returned this. */
  function ToldBy(me: nat, err: Option<Error>): multiset<Signal> {
    if err == Some(ErrOther) then multiset{OperationFailed(me)} else multiset{}
  }

  /** How the driver's refusal of an insert is reported: a duplicate reference exactly as that, a duplicate
      sequence number or a write conflict exactly as a duplicate sequence number, anything else as it is. */
  predicate Reported(refusal: Option<DriverError>, err: Option<Error>) {
    && (err == None <==> refusal == None)
    && (err == Some(ErrDuplicateReferenceID) <==> refusal == Some(DuplicateReferenceKey))
    && (err == Some(ErrDuplicateSequence) <==>
          refusal == Some(DuplicateSequenceKey) || refusal == Some(WriteConflictError))
    && (err == Some(ErrOther) <==> refusal == Some(OtherDriverError))
    && (err.Some? ==>
          err.value == ErrDuplicateReferenceID || err.value == ErrDuplicateSequence || err.value == ErrOther)
  }

  /** The mapping of driver errors shared by both inserts. */
  function Classify(e: DriverError): Error {
    match e
    case DuplicateReferenceKey => ErrDuplicateReferenceID
    case DuplicateSequenceKey => ErrDuplicateSequence
    case WriteConflictError => ErrDuplicateSequence
    case _ => ErrOther
  }
}
