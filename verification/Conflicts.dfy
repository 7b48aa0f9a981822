/** Conflict accounting: with reads no older than the attempt, every genuine sequence conflict is paid for by
    a commit another call made on a phone of the request during that attempt. */
module Conflicts {
  import opened Model
  import opened Ledger
  import opened Protocol
  import opened Safety

  predicate Disturbs(x: Commit, id: nat, req: Request) {
    x.author != id && exists r :: r in Rows(x) && req.Touches(r.phone)
  }

  /** Commits of other calls on the request's phones, after the first k commits. */
  function Foreign(log: seq<Commit>, id: nat, req: Request, k: nat): nat {
    if |log| <= k then 0
    else Foreign(log[..|log| - 1], id, req, k) + if Disturbs(log[|log| - 1], id, req) then 1 else 0
  }

  lemma ForeignAppend(log: seq<Commit>, x: Commit, id: nat, req: Request, k: nat)
    requires k <= |log|
    ensures Foreign(log + [x], id, req, k) == Foreign(log, id, req, k) + if Disturbs(x, id, req) then 1 else 0
  {
    assert (log + [x])[..|log|] == log;
  }

  lemma {:induction false} ForeignMonotone(log: seq<Commit>, b: nat, id: nat, req: Request, k: nat)
    requires b <= |log|
    ensures Foreign(log[..b], id, req, k) <= Foreign(log, id, req, k)
  {
    if b < |log| {
      assert log[..|log| - 1][..b] == log[..b];
      ForeignMonotone(log[..|log| - 1], b, id, req, k);
    } else {
      assert log[..b] == log;
    }
  }

  /** A chain that grew since the first b commits grew by a disturbing commit. */
  lemma {:induction false} GrowthIsForeign(log: seq<Commit>, b: nat, id: nat, req: Request, k: nat, p: Phone)
    returns (j: nat)
    requires k <= b <= |log| && req.Touches(p)
    requires |Where(log[..b], OnPhone(p))| < |Where(log, OnPhone(p))|
    requires forall i :: 0 <= i < |log| ==> log[i].author != id
    ensures Foreign(log[..b], id, req, k) < Foreign(log, id, req, k)
    ensures b <= j < |log| && Disturbs(log[j], id, req)
  {
    assert log[..|log|] == log;
    hide Disturbs, Pick, Where, Foreign;
    var shorter, x := log[..|log| - 1], log[|log| - 1];
    assert shorter[..b] == log[..b] && shorter + [x] == log;
    WhereAppend(shorter, x, OnPhone(p));
    ForeignAppend(shorter, x, id, req, k);
    if |Where(log[..b], OnPhone(p))| < |Where(shorter, OnPhone(p))| {
      j := GrowthIsForeign(shorter, b, id, req, k, p);
    } else {
      assert Pick(OnPhone(p), Rows(x)) != [];
      PickedDisturbs(x, id, req, p);
      ForeignMonotone(shorter, b, id, req, k);
      j := |log| - 1;
    }
  }

  lemma PickedDisturbs(x: Commit, id: nat, req: Request, p: Phone)
    requires x.author != id && req.Touches(p) && Pick(OnPhone(p), Rows(x)) != []
    ensures Disturbs(x, id, req)
  {
    PickRows(OnPhone(p), x);
    if x.One? { assert x.row in Rows(x); } else { assert x.debit in Rows(x) && x.credit in Rows(x); }
  }

  /** A taken sequence number is one the chain reached after the read. */
  lemma TakenSinceRead(log: seq<Commit>, b: nat, k: nat, id: nat, req: Request, start: nat, p: Phone)
    requires Sound(log) && start <= b <= k <= |log| && req.Touches(p)
    requires SeqTaken(log, p, SeqAfter(Latest(log[..k], p)))
    requires forall i :: 0 <= i < |log| ==> log[i].author != id
    ensures Foreign(log[..b], id, req, start) < Foreign(log, id, req, start)
    ensures exists j :: b <= j < |log| && Disturbs(log[j], id, req)
  {
    hide Where, Newest, Sound, SeqTaken, Disturbs;
    SoundPrefix(log, k);
    ChainInvariant(log[..k], p);
    SeqTakenIff(log, p, SeqAfter(Latest(log[..k], p)));
    assert log[..k][..b] == log[..b];
    WherePrefix(log[..k], b, OnPhone(p));
    var j := GrowthIsForeign(log, b, id, req, start, p);
  }

  /* ---------- Invariant ---------- */

  predicate InAttempt(c: Call) {
    c.at == ReadOwner || c.at == ReadReceiver || c.at == Insert || c.at == FailRead || c.at == FailInsert
  }

  /** Every conflict counted so far is paid; inside an attempt, by commits before the attempt began. */
  predicate Paid(log: seq<Commit>, id: nat, c: Call) {
    && c.start <= c.began <= |log|
    && c.conflicts <= Foreign(if InAttempt(c) then log[..c.began] else log, id, c.req, c.start)
    && (c.at == ReadReceiver || c.at == Insert || c.at == FailInsert ==> c.began <= c.seen)
    && (c.at == Insert && c.req.TransferRequest? ==> c.began <= c.seenReceiver)
    && (c.at == Early ==> c.conflicts == 0)
  }

  lemma PaidStable(log: seq<Commit>, x: Commit, id: nat, c: Call)
    requires Paid(log, id, c)
    ensures Paid(log + [x], id, c)
  {
    hide Foreign;
    ForeignAppend(log, x, id, c.req, c.start);
    assert (log + [x])[..c.began] == log[..c.began];
  }

  /** The conflict this refusal adds is paid by a commit made since the attempt began. */
  lemma RefusalIsPaid(log: seq<Commit>, id: nat, c: Call)
    requires Sound(log) && Built(log, c) && Owned(log, id, c) && Paid(log, id, c)
    requires c.at == Insert || c.at == FailInsert
    requires HitsSequence(log, Draft(id, c, 0, 0))
    ensures c.conflicts < Foreign(log, id, c.req, c.start)
    ensures exists j :: c.began <= j < |log| && Disturbs(log[j], id, c.req)
  {
    hide Where, Newest, Sound, Foreign, Disturbs, Latest, OverCapacity, Insufficient, Wrap, SeqTaken;
    var p := c.req.Owner();
    if SeqTaken(log, p, SeqAfter(Latest(log[..c.seen], p))) {
      TakenSinceRead(log, c.began, c.seen, id, c.req, c.start, p);
    } else {
      assert c.at == Insert && c.req.TransferRequest?;
      TakenSinceRead(log, c.began, c.seenReceiver, id, c.req, c.start, c.req.receiver);
    }
  }

  lemma PaidReadStep(id: nat, log: seq<Commit>, c: Call, k: nat)
    requires Paid(log, id, c) && Enabled(SinceAttempt, id, log, c, See(k))
    ensures Paid(log, id, AfterSee(log, c, k))
  {
    hide Where, Newest, Foreign, Latest, OverCapacity, Insufficient, DepositRow, WithdrawalRow, DebitRow, CreditRow,
      FailedRow;
    ForeignMonotone(log, c.began, id, c.req, c.start);
  }

  lemma PaidStep(id: nat, log: seq<Commit>, c: Call, choice: Choice)
    requires Sound(log) && CallOk(SinceAttempt, log, id, c) && Paid(log, id, c)
    requires Enabled(SinceAttempt, id, log, c, choice)
    ensures Paid(Grown(id, log, c, choice), id, Stepped(SinceAttempt, id, log, c, choice))
  {
    hide Where, Newest, Sound, Foreign, Disturbs, Latest, OverCapacity, Insufficient, HitsSequence, HitsReference,
      DraftReady, Truthful, Owned, AfterSee;
    ForeignMonotone(log, c.began, id, c.req, c.start);
    assert log[..|log|] == log;
    if choice.See? {
      PaidReadStep(id, log, c, choice.k);
    } else if choice.Write? {
      PaidStable(log, Draft(id, c, choice.id, choice.creditId), id, c);
      ForeignAppend(log, Draft(id, c, choice.id, choice.creditId), id, c.req, c.start);
    } else if choice.RefusedSequence? {
      RefusalIsPaid(log, id, c);
    }
  }

  predicate AllPaid(s: System) {
    forall id :: id in s.calls ==> Paid(s.log, id, s.calls[id])
  }

  lemma AllPaidStep(s: System, e: Event)
    requires Inv(SinceAttempt, s) && AllPaid(s) && Possible(SinceAttempt, s, e)
    ensures AllPaid(Next(SinceAttempt, s, e))
  {
    hide Paid, CallOk, Sound, Enabled, Stepped, Draft;
    match e
    case Arrive(id, req) =>
      NewCallPaid(s.log, id, req);
    case Act(author, choice) =>
      PaidStep(author, s.log, s.calls[author], choice);
      if choice.Write? {
        var x := Draft(author, s.calls[author], choice.id, choice.creditId);
        forall id | id in s.calls && id != author ensures Paid(s.log + [x], id, s.calls[id]) {
          PaidStable(s.log, x, id, s.calls[id]);
        }
      }
  }

  lemma NewCallPaid(log: seq<Commit>, id: nat, req: Request)
    ensures Paid(log, id, NewCall(req))
  {
  }

  lemma {:induction false} RunIsPaid(events: seq<Event>)
    requires Run(SinceAttempt, events)
    ensures AllPaid(State(SinceAttempt, events))
  {
    hide AllPaid, Inv, Possible, Next;
    if events == [] {
      NothingOwed();
    } else {
      var shorter := events[..|events| - 1];
      RunIsPaid(shorter);
      RunKeepsInvariant(SinceAttempt, shorter);
      AllPaidStep(State(SinceAttempt, shorter), events[|events| - 1]);
    }
  }

  lemma NothingOwed()
    ensures AllPaid(System([], map[]))
  {
  }

  /** At any moment of a run a call has suffered at most as many genuine conflicts as other calls have made
      commits on its phones since its EarlyCheck. A high-frequency answer therefore stands for at least 100
      such commits, less the spurious write conflicts the driver reported. */
  lemma HighFrequencyIsPaidFor(events: seq<Event>, id: nat)
    requires Run(SinceAttempt, events) && id in State(SinceAttempt, events).calls
    ensures var log, c := State(SinceAttempt, events).log, State(SinceAttempt, events).calls[id];
            && c.conflicts <= Foreign(log, id, c.req, c.start)
            && (c.at == Done(Failure(ErrHighFrequencyTransaction)) ==>
                  Foreign(log, id, c.req, c.start) + c.spurious >= 100)
  {
    hide Sound, Foreign, Owned, Run, State;
    RunIsPaid(events);
    RunCallOk(SinceAttempt, events, id);
    var log, c := State(SinceAttempt, events).log, State(SinceAttempt, events).calls[id];
    assert Paid(log, id, c);
    ForeignMonotone(log, c.began, id, c.req, c.start);
  }

  /** Some request always makes progress: whenever the sequence index refuses an attempt, another call has
      committed on one of its phones since the attempt began. */
  lemma ConflictMeansProgress(events: seq<Event>, id: nat)
    requires Run(SinceAttempt, events)
    requires Possible(SinceAttempt, State(SinceAttempt, events), Act(id, RefusedSequence))
    ensures var log, c := State(SinceAttempt, events).log, State(SinceAttempt, events).calls[id];
            exists j :: c.began <= j < |log| && log[j].author != id && Disturbs(log[j], id, c.req)
  {
    hide Sound, Foreign, Disturbs, Run, State, HitsSequence, HitsReference, Draft, Truthful;
    RunIsPaid(events);
    RunCallOk(SinceAttempt, events, id);
    var log, c := State(SinceAttempt, events).log, State(SinceAttempt, events).calls[id];
    RefusalIsPaid(log, id, c);
    var j :| c.began <= j < |log| && Disturbs(log[j], id, c.req);
    OthersDisturb(log[j], id, c.req);
  }

  lemma OthersDisturb(x: Commit, id: nat, req: Request)
    requires Disturbs(x, id, req)
    ensures x.author != id
  {
  }
}
