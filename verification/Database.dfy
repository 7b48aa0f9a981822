/** The collection as a mutable object shared by all calls, the driver's operations on it, and sessions that
    buffer an insert until they commit. Beside the documents it keeps the history of the step system: whatever a
    call does here is recorded there as one of its steps, so every execution of the service is a run of
    Protocol. And it keeps what the outside has told each call; a step that blames the outside can be recorded
    only when the outside is to blame. */
module Database {
  import opened Model
  import opened Ledger
  import opened Protocol
  import opened Signals

  /** What the driver reports. */
  datatype DriverError =
    | NoDocuments            // a query matched nothing
    | DuplicateReferenceKey  // duplicate key, message names unique_reference
    | DuplicateSequenceKey   // duplicate key, message names unique_wallet_sequence
    | WriteConflictError     // message contains WriteConflict
    | OtherDriverError

  /** What the call has been told by such a report, and has not yet recorded. */
  function Told(me: nat, err: Option<DriverError>): multiset<Signal> {
    if err == Some(OtherDriverError) then multiset{OperationFailed(me)}
    else if err == Some(WriteConflictError) then multiset{WriteClash(me)}
    else multiset{}
  }

  /** A server session with an open transaction: the insert it has buffered, and how its last insert was
      refused. */
  class Session {
    var pending: Option<Commit>
    var refusal: Option<DriverError>

    constructor ()
      ensures pending == None
    {
      pending, refusal := None, None;
    }
  }

  class Collection {
    const mode: ReadConcern
    var log: seq<Commit>
    var events: seq<Event>
    ghost var signals: multiset<Signal>

    ghost predicate Valid()
      reads this`log, this`events
    {
      Run(mode, events) && State(mode, events).log == log
    }

    ghost function Calls(): map<nat, Call>
      reads this`log, this`events
      requires Valid()
    {
      State(mode, events).calls
    }

    /** Everything the outside has said is recorded in the history, but for this. */
    ghost predicate Owes(debt: multiset<Signal>)
      reads this
      requires Valid()
    {
      signals == Recorded(mode, events) + debt
    }

    constructor (mode: ReadConcern)
      ensures Valid() && this.mode == mode && log == [] && Calls() == map[] && Owes(multiset{})
    {
      this.mode := mode;
      log := [];
      events := [];
      signals := multiset{};
    }

    /** A request reaches the service. */
    method Arrive(me: nat, req: Request)
      requires Valid() && me !in Calls() && req.Admitted() && Owes(multiset{})
      modifies this
      ensures Valid() && log == old(log) && events == old(events) + [Event.Arrive(me, req)] && Owes(multiset{})
      ensures me in Calls() && Calls()[me] == NewCall(req)
    {
      RunAppend(mode, events, Event.Arrive(me, req));
      RecordedAppend(mode, events, Event.Arrive(me, req));
      events := events + [Event.Arrive(me, req)];
    }

    /** The call's last operation was this step, and the outside has said just what the step records. */
    method Note(me: nat, choice: Choice)
      requires Valid() && me in Calls() && Enabled(mode, me, log, Calls()[me], choice) && !choice.Write?
      requires Owes(SignalOf(me, Calls()[me].req, choice))
      modifies this`events
      ensures Valid() && events == old(events) + [Act(me, choice)] && Owes(multiset{})
      ensures me in Calls() && Calls()[me] == Stepped(mode, me, log, old(Calls()[me]), choice)
    {
      hide Enabled, Stepped, Run, State, Recorded, SignalOf;
      RunAppend(mode, events, Act(me, choice));
      RecordedAppend(mode, events, Act(me, choice));
      events := events + [Act(me, choice)];
    }

    /** Other calls proceed: any number of steps of theirs, in any order, with any outcomes. */
    method Interfere(me: nat)
      requires Valid() && me in Calls() && Owes(multiset{})
      modifies this
      ensures Valid() && old(log) <= log && old(events) <= events && Owes(multiset{})
      ensures me in Calls() && Calls()[me] == old(Calls()[me])
      ensures forall i :: |old(events)| <= i < |events| ==> events[i].call != me
    {
      hide Enabled, Stepped, Draft, SignalOf, Recorded, Run, State;
      var steps: nat := *;
      while steps > 0
        invariant Valid() && old(log) <= log && old(events) <= events && Owes(multiset{})
        invariant me in Calls() && Calls()[me] == old(Calls()[me])
        invariant forall i :: |old(events)| <= i < |events| ==> events[i].call != me
      {
        var e: Event := *;
        if e.call != me && Possible(mode, State(mode, events), e) {
          RunAppend(mode, events, e);
          RecordedAppend(mode, events, e);
          signals := signals + Charged(mode, State(mode, events), e);
          events := events + [e];
          log := State(mode, events).log;
        }
        steps := steps - 1;
      }
    }

    /* ---------- The driver ---------- */

    method StartSession(me: nat) returns (session: Session, err: Option<DriverError>)
      requires Valid() && Owes(multiset{})
      modifies this`signals
      ensures fresh(session) && session.pending == None
      ensures (err == None || err == Some(OtherDriverError)) && Owes(Told(me, err))
    {
      session := new Session();
      err := Fate(me);
    }

    /** An operation of the driver may fail, and the call is then told so. */
    method Fate(me: nat) returns (err: Option<DriverError>)
      requires Valid() && Owes(multiset{})
      modifies this`signals
      ensures (err == None || err == Some(OtherDriverError)) && Owes(Told(me, err))
    {
      var broken: bool := *;
      err := if broken then Some(OtherDriverError) else None;
      signals := signals + Told(me, err);
    }

    /** FindOne on a phone, sorted by sequence number descending, answered from a committed state no older than
        asked for; `k` tells which. */
    method FindLatest(me: nat, phone: Phone, oldest: nat)
      returns (row: Option<Row>, err: Option<DriverError>, k: nat)
      requires Valid() && Owes(multiset{}) && oldest <= |log|
      modifies this`signals
      ensures oldest <= k <= |log| && Owes(Told(me, err))
      ensures err == Some(OtherDriverError) || (row == Latest(log[..k], phone)
                                                && err == if row.None? then Some(NoDocuments) else None)
    {
      hide Where, Newest, Run, State, Recorded;
      k := oldest;
      var newer: nat := *;
      if oldest <= newer <= |log| {
        k := newer;
      }
      row := None;
      err := Fate(me);
      if err.None? {
        row := Latest(log[..k], phone);
        err := if row.None? then Some(NoDocuments) else None;
      }
    }

    method FindOne(me: nat, filter: Query) returns (row: Option<Row>, err: Option<DriverError>)
      requires Valid() && Owes(multiset{})
      modifies this`signals
      ensures Owes(Told(me, err))
      ensures err == Some(OtherDriverError) || (row == Find(log, filter)
                                                && err == if row.None? then Some(NoDocuments) else None)
    {
      hide Where, Run, State, Recorded;
      row := None;
      err := Fate(me);
      if err.None? {
        row := Find(log, filter);
        err := if row.None? then Some(NoDocuments) else None;
      }
    }

    /** The two sub-pipelines of EarlyCheck's aggregation, each limited to one document. */
    method Aggregate(me: nat, refID: Key, phone: Phone)
      returns (byRef: Option<Row>, latest: Option<Row>, err: Option<DriverError>)
      requires Valid() && Owes(multiset{})
      modifies this`signals
      ensures (err == None || err == Some(OtherDriverError)) && Owes(Told(me, err))
      ensures err.None? ==> byRef == Find(log, RefOn(refID, phone)) && latest == Latest(log, phone)
    {
      hide Where, Newest, Run, State, Recorded;
      byRef, latest := None, None;
      err := Fate(me);
      if err.None? {
        byRef, latest := Find(log, RefOn(refID, phone)), Latest(log, phone);
      }
    }

    /** How an insert of this batch fares: refused by an index, by a conflict or otherwise, or accepted. */
    method TryInsert(me: nat, batch: Commit) returns (err: Option<DriverError>)
      requires Valid() && Owes(multiset{})
      modifies this`signals
      ensures Owes(Told(me, err)) && err != Some(NoDocuments)
      ensures err == Some(DuplicateReferenceKey) ==> HitsReference(log, batch)
      ensures err == Some(DuplicateSequenceKey) ==> HitsSequence(log, batch)
      ensures err.None? ==> !HitsReference(log, batch) && !HitsSequence(log, batch)
    {
      hide HitsReference, HitsSequence, Run, State, Recorded;
      var byReference, bySequence := HitsReference(log, batch), HitsSequence(log, batch);
      var conflict: bool, referenceFirst: bool := *, *;
      err := Fate(me);
      if err.None? {
        if conflict {
          err := Some(WriteConflictError);
          signals := signals + multiset{WriteClash(me)};
        } else if byReference && (referenceFirst || !bySequence) {
          err := Some(DuplicateReferenceKey);
        } else if bySequence {
          err := Some(DuplicateSequenceKey);
        }
      }
    }

    /** InsertOne inside a session: refused, or buffered under a fresh id. */
    method InsertOne(me: nat, session: Session, row: Row) returns (err: Option<DriverError>, id: nat)
      requires Valid() && Owes(multiset{}) && session.pending == None
      modifies this`signals, session
      ensures Owes(Told(me, err)) && err != Some(NoDocuments) && session.refusal == err
      ensures err == Some(DuplicateReferenceKey) ==> HitsReference(log, One(me, row))
      ensures err == Some(DuplicateSequenceKey) ==> HitsSequence(log, One(me, row))
      ensures err.Some? ==> session.pending == None
      ensures err.None? ==>
                && session.pending == Some(One(me, row.(id := id)))
                && !HitsReference(log, One(me, row)) && !HitsSequence(log, One(me, row))
    {
      hide HitsReference, HitsSequence, Run, State, Recorded;
      id := *;
      err := TryInsert(me, One(me, row));
      session.refusal := err;
      if err.None? {
        session.pending := Some(One(me, row.(id := id)));
      }
    }

    /** InsertMany of the two legs. */
    method InsertMany(me: nat, session: Session, credit: Row, debit: Row)
      returns (err: Option<DriverError>, creditId: nat, debitId: nat)
      requires Valid() && Owes(multiset{}) && session.pending == None
      modifies this`signals, session
      ensures Owes(Told(me, err)) && err != Some(NoDocuments) && session.refusal == err
      ensures err == Some(DuplicateReferenceKey) ==> HitsReference(log, Two(me, debit, credit))
      ensures err == Some(DuplicateSequenceKey) ==> HitsSequence(log, Two(me, debit, credit))
      ensures err.Some? ==> session.pending == None
      ensures err.None? ==>
                && session.pending == Some(Two(me, debit.(id := debitId), credit.(id := creditId)))
                && !HitsReference(log, Two(me, debit, credit)) && !HitsSequence(log, Two(me, debit, credit))
    {
      hide HitsReference, HitsSequence, Run, State, Recorded;
      creditId := *;
      debitId := *;
      err := TryInsert(me, Two(me, debit, credit));
      session.refusal := err;
      if err.None? {
        session.pending := Some(Two(me, debit.(id := debitId), credit.(id := creditId)));
      }
    }

    /** Commit: the buffered rows become visible, all together, or the operation fails and none do. */
    method Commit(session: Session, me: nat) returns (err: Option<DriverError>)
      requires Valid() && me in Calls() && session.pending.Some? && Owes(multiset{})
      requires Enabled(mode, me, log, Calls()[me], WriteOf(session.pending.value))
      requires var w := WriteOf(session.pending.value);
               session.pending.value == Draft(me, Calls()[me], w.id, w.creditId)
      modifies this
      ensures Valid() && me in Calls() && Owes(Told(me, err))
      ensures err == None || (err == Some(OtherDriverError) && log == old(log) && events == old(events))
      ensures err.None? ==>
                && log == old(log) + [session.pending.value]
                && events == old(events) + [Act(me, WriteOf(session.pending.value))]
                && Calls()[me] == Stepped(mode, me, old(log), old(Calls()[me]), WriteOf(session.pending.value))
    {
      hide Enabled, Stepped, Run, State, Recorded;
      err := Fate(me);
      if err.None? {
        var choice := WriteOf(session.pending.value);
        RunAppend(mode, events, Act(me, choice));
        RecordedAppend(mode, events, Act(me, choice));
        log := log + [session.pending.value];
        events := events + [Act(me, choice)];
      }
    }
  }

  /** The wallet service answers what it likes, and the call is told. */
  class WalletClient {
    const collection: Collection

    constructor (collection: Collection)
      ensures this.collection == collection
    {
      this.collection := collection;
    }

    method GetWalletInfo(me: nat, phone: Phone) returns (answer: WalletAnswer)
      requires collection.Valid() && collection.Owes(multiset{})
      modifies collection`signals
      ensures collection.Owes(multiset{WalletSaid(me, phone, answer)})
    {
      answer := *;
      collection.signals := collection.signals + multiset{WalletSaid(me, phone, answer)};
    }
  }

  /** The step that commits this batch. */
  function WriteOf(batch: Commit): Choice {
    match batch
    case One(_, row) => Write(row.id, 0)
    case Two(_, debit, credit) => Write(debit.id, credit.id)
  }
}
