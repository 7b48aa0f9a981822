/** How often an operation is tried. */
module Retries {
  import opened Model
  import opened Ledger
  import opened Protocol

  predicate IsConflict(choice: Choice) {
    choice.RefusedSequence? || choice.WriteConflict?
  }

  /** The conflicts a call has met in the retry loop it is in, or was in last: counted anew when a transfer goes
      on to record its failure. */
  function ConflictsInLoop(mode: ReadConcern, events: seq<Event>, id: nat): nat
    requires Run(mode, events)
  {
    if events == [] then 0
    else
      var shorter, e := events[..|events| - 1], events[|events| - 1];
      if e.call != id then ConflictsInLoop(mode, shorter, id)
      else if e.Arrive? then 0
      else if IsConflict(e.choice) then ConflictsInLoop(mode, shorter, id) + 1
      else if State(mode, shorter).calls[id].at == ReadReceiver && State(mode, events).calls[id].at == FailBegin then 0
      else ConflictsInLoop(mode, shorter, id)
  }

  predicate AtTop(c: Call) {
    c.at == Begin || c.at == FailBegin
  }

  /** The loop counter counts them, and stays below the limit inside an attempt. */
  predicate Counted(c: Call, conflicts: nat) {
    && c.i == conflicts <= 100
    && (!AtTop(c) && !c.at.Done? ==> c.i < 100)
    && (c.at == Done(Failure(ErrHighFrequencyTransaction)) ==> c.i == 100)
    && (c.at == Peek || c.at == ReceiverLookup || c.at == ReadReceiver ==> c.req.TransferRequest?)
    && (c.at == Early || c.at == WalletLookup || c.at == Peek || c.at == ReceiverLookup ==> c.i == 0)
  }

  lemma CountedStep(mode: ReadConcern, id: nat, log: seq<Commit>, c: Call, choice: Choice, conflicts: nat)
    requires Enabled(mode, id, log, c, choice) && Counted(c, conflicts)
    ensures var d := Stepped(mode, id, log, c, choice);
            Counted(d, if IsConflict(choice) then conflicts + 1
                       else if c.at == ReadReceiver && d.at == FailBegin then 0 else conflicts)
  {
    hide Latest, Find, HitsReference, HitsSequence, Draft, OverCapacity, Insufficient, DepositRow, WithdrawalRow,
      DebitRow, CreditRow, FailedRow, Visible;
  }

  lemma {:induction false} LoopCounts(mode: ReadConcern, events: seq<Event>, id: nat)
    requires Run(mode, events) && id in State(mode, events).calls
    ensures Counted(State(mode, events).calls[id], ConflictsInLoop(mode, events, id))
  {
    hide Enabled, Stepped, Draft, Counted;
    var shorter, e := events[..|events| - 1], events[|events| - 1];
    if e.call != id {
      LoopCounts(mode, shorter, id);
    } else if e.Act? {
      LoopCounts(mode, shorter, id);
      var s := State(mode, shorter);
      CountedStep(mode, id, s.log, s.calls[id], e.choice, ConflictsInLoop(mode, shorter, id));
    } else {
      NewCallCounted(e.req);
    }
  }

  lemma NewCallCounted(req: Request)
    ensures Counted(NewCall(req), 0)
  {
  }

  /** At the top of either retry loop, a call that has met fewer than 100 conflicts in it makes another attempt,
      and one that has met 100 answers that traffic is too high. */
  lemma HundredAttempts(mode: ReadConcern, events: seq<Event>, id: nat)
    requires Run(mode, events) && id in State(mode, events).calls && AtTop(State(mode, events).calls[id])
    ensures Run(mode, events + [Act(id, Go)])
    ensures var c, at := State(mode, events).calls[id], State(mode, events + [Act(id, Go)]).calls[id].at;
            && ConflictsInLoop(mode, events, id) <= 100
            && (ConflictsInLoop(mode, events, id) < 100 ==> at == if c.at == FailBegin then FailRead else ReadOwner)
            && (ConflictsInLoop(mode, events, id) == 100 ==> at == Done(Failure(ErrHighFrequencyTransaction)))
  {
    hide Run, State, ConflictsInLoop;
    LoopCounts(mode, events, id);
    RunAppend(mode, events, Act(id, Go));
  }

  /** A conflict, genuine or spurious, sends the call back to the top of the loop it is in, with nothing committed
      and one conflict more. */
  lemma ConflictGoesBack(mode: ReadConcern, events: seq<Event>, id: nat, choice: Choice)
    requires Run(mode, events) && IsConflict(choice) && Possible(mode, State(mode, events), Act(id, choice))
    ensures Run(mode, events + [Act(id, choice)])
    ensures var s, t := State(mode, events), State(mode, events + [Act(id, choice)]);
            && t.log == s.log
            && (s.calls[id].at == Insert ==> t.calls[id].at == Begin)
            && (s.calls[id].at == FailInsert ==> t.calls[id].at == FailBegin)
            && (s.calls[id].at == Insert || s.calls[id].at == FailInsert)
            && ConflictsInLoop(mode, events + [Act(id, choice)], id) == ConflictsInLoop(mode, events, id) + 1
  {
    hide Run, State, HitsSequence, Draft;
    RunAppend(mode, events, Act(id, choice));
    assert (events + [Act(id, choice)])[..|events|] == events;
  }

  /** When the driver runs a callback again, it starts over with its first read, and nothing has been committed or
      counted: the rows the aborted run built are not reused. */
  lemma RerunStartsOver(mode: ReadConcern, events: seq<Event>, id: nat)
    requires Run(mode, events) && Possible(mode, State(mode, events), Act(id, Rerun))
    ensures Run(mode, events + [Act(id, Rerun)])
    ensures var s, t := State(mode, events), State(mode, events + [Act(id, Rerun)]);
            && t.log == s.log
            && (t.calls[id].at == FailRead <==> s.calls[id].at == FailRead || s.calls[id].at == FailInsert)
            && (t.calls[id].at == ReadOwner || t.calls[id].at == FailRead)
            && ConflictsInLoop(mode, events + [Act(id, Rerun)], id) == ConflictsInLoop(mode, events, id)
  {
    hide Run, State, HitsSequence, HitsReference, Draft;
    RunAppend(mode, events, Act(id, Rerun));
    assert (events + [Act(id, Rerun)])[..|events|] == events;
  }

  /** No call answers that traffic is too high that has not met 100 conflicts in one loop. */
  lemma HighFrequencyMeansHundred(mode: ReadConcern, events: seq<Event>, id: nat)
    requires Run(mode, events) && id in State(mode, events).calls
    requires State(mode, events).calls[id].at == Done(Failure(ErrHighFrequencyTransaction))
    ensures ConflictsInLoop(mode, events, id) == 100
  {
    hide Run, State, ConflictsInLoop;
    LoopCounts(mode, events, id);
  }
}
