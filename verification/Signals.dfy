/** What the driver and the wallet service tell a call, and that a run records all of it: an operation that
    failed, a write conflict, an answer of the wallet service. */
module Signals {
  import opened Model
  import opened Ledger
  import opened Protocol

  datatype Signal =
    | OperationFailed(call: nat)  // a read, insert, commit or the start of a session failed
    | WriteClash(call: nat)       // an insert met a write conflict
    | WalletSaid(call: nat, phone: Phone, answer: WalletAnswer)

  /** The phone whose wallet the request needs when that phone has no history. */
  function LookupPhone(req: Request): Phone {
    if req.TransferRequest? then req.receiver else req.phone
  }

  /** What the call has been told when it takes this step. */
  function SignalOf(id: nat, req: Request, choice: Choice): multiset<Signal> {
    match choice
    case Break => multiset{OperationFailed(id)}
    case Rerun => multiset{OperationFailed(id)}
    case WriteConflict => multiset{WriteClash(id)}
    case Say(answer) => multiset{WalletSaid(id, LookupPhone(req), answer)}
    case _ => multiset{}
  }

  function Charged(mode: ReadConcern, s: System, e: Event): multiset<Signal>
    requires Possible(mode, s, e)
  {
    match e
    case Arrive(_, _) => multiset{}
    case Act(id, choice) => SignalOf(id, s.calls[id].req, choice)
  }

  /** All the signals the steps of a run record. */
  function Recorded(mode: ReadConcern, events: seq<Event>): multiset<Signal>
    requires Run(mode, events)
  {
    if events == [] then multiset{}
    else
      var shorter := events[..|events| - 1];
      Recorded(mode, shorter) + Charged(mode, State(mode, shorter), events[|events| - 1])
  }

  lemma RecordedAppend(mode: ReadConcern, events: seq<Event>, e: Event)
    requires Run(mode, events) && Possible(mode, State(mode, events), e)
    ensures Run(mode, events + [e])
    ensures Recorded(mode, events + [e]) == Recorded(mode, events) + Charged(mode, State(mode, events), e)
  {
    hide State, Possible;
    RunAppend(mode, events, e);
    assert (events + [e])[..|events|] == events;
  }

  /** No step is recorded of a call before it arrives. */
  lemma {:induction false} NothingBeforeArrival(mode: ReadConcern, events: seq<Event>, id: nat)
    requires Run(mode, events) && id !in State(mode, events).calls
    ensures forall s :: s in Recorded(mode, events) ==> s.call != id
  {
    hide Enabled, Stepped, Draft;
    if events != [] {
      NothingBeforeArrival(mode, events[..|events| - 1], id);
    }
  }

  /** An answer that blames the outside was told so by the outside. */
  predicate Blamed(recorded: multiset<Signal>, id: nat, req: Request, at: Point) {
    && (at == Done(Failure(ErrOther)) ==>
          OperationFailed(id) in recorded || WalletSaid(id, LookupPhone(req), WalletFailure) in recorded)
    && (at == Done(Failure(ErrWalletNotFound)) ==> WalletSaid(id, LookupPhone(req), NoWallet) in recorded)
  }

  lemma BlamedRead(log: seq<Commit>, c: Call, k: nat, told: multiset<Signal>, id: nat)
    requires k <= |log| && (c.at == ReadOwner || c.req.TransferRequest?)
    ensures AfterSee(log, c, k).req == c.req && Blamed(told, id, c.req, AfterSee(log, c, k).at)
  {
    hide Latest, OverCapacity, Insufficient, DepositRow, WithdrawalRow, DebitRow, CreditRow, FailedRow;
  }

  lemma BlamedStep(mode: ReadConcern, id: nat, log: seq<Commit>, c: Call, choice: Choice)
    requires Enabled(mode, id, log, c, choice)
    ensures var d := Stepped(mode, id, log, c, choice);
            d.req == c.req && Blamed(SignalOf(id, c.req, choice), id, c.req, d.at)
  {
    hide Latest, Find, HitsReference, HitsSequence, Draft, AfterSee;
    if choice.See? {
      BlamedRead(log, c, choice.k, SignalOf(id, c.req, choice), id);
    }
  }

  /** In every run a call answers ErrOther only if one of its operations failed or the wallet service did, and
      ErrWalletNotFound only if the wallet service said so of the phone that needs a wallet. */
  lemma {:induction false} NoBlameWithoutCause(mode: ReadConcern, events: seq<Event>, id: nat)
    requires Run(mode, events) && id in State(mode, events).calls
    ensures var c := State(mode, events).calls[id]; Blamed(Recorded(mode, events), id, c.req, c.at)
  {
    hide Enabled, Stepped, Draft, SignalOf;
    var shorter, e := events[..|events| - 1], events[|events| - 1];
    if e.call == id {
      if e.Act? {
        BlamedStep(mode, id, State(mode, shorter).log, State(mode, shorter).calls[id], e.choice);
      }
    } else {
      NoBlameWithoutCause(mode, shorter, id);
    }
  }
}
