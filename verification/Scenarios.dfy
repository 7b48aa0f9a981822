/** Every undisturbed call can run to its end; and concrete runs in which an answer misleads. */
module Scenarios {
  import opened Model
  import opened Ledger
  import opened Protocol
  import opened Safety
  import opened SequentialBank
  import opened Undisturbed
  import opened HalfTransfer

  /** The state changed in one call, and the log grew by the given commits. */
  predicate Onward(s: System, t: System, id: nat, added: seq<Commit>) {
    && t.log == s.log + added
    && id in t.calls
    && t.calls.Keys == s.calls.Keys + {id}
    && forall o :: o in s.calls && o != id ==> t.calls[o] == s.calls[o]
  }

  lemma OnwardTwice(s: System, t: System, u: System, id: nat, added: seq<Commit>)
    requires Onward(s, t, id, []) && Onward(t, u, id, added)
    ensures Onward(s, u, id, added)
  {
    assert s.log + [] == s.log;
  }

  lemma Arrival(mode: ReadConcern, events: seq<Event>, id: nat, req: Request) returns (more: seq<Event>)
    requires Run(mode, events) && req.Admitted() && id !in State(mode, events).calls
    ensures events <= more && Run(mode, more)
    ensures Onward(State(mode, events), State(mode, more), id, [])
    ensures State(mode, more).calls[id] == NewCall(req)
  {
    more := events + [Arrive(id, req)];
    RunAppend(mode, events, Arrive(id, req));
    var s := State(mode, events);
    assert s.log + [] == s.log;
  }

  /** An undisturbed call goes on to its outcome, whatever the read concern. */
  lemma Finish(mode: ReadConcern, events: seq<Event>, id: nat, w: World, v: Outcome) returns (more: seq<Event>)
    requires Run(mode, events) && id in State(mode, events).calls && !State(mode, events).calls[id].at.Done?
    requires var s := State(mode, events); OnTrack(s.log, id, w, v, s.log, s.calls[id])
    ensures events <= more && Run(mode, more)
    ensures Onward(State(mode, events), State(mode, more), id, v.added)
    ensures var c := State(mode, more).calls[id]; c.at == Done(v.answer) && c.req == State(mode, events).calls[id].req
    decreases 9 - Rank(State(mode, events).calls[id].at)
  {
    hide Run, State, Enabled, Stepped, Sound, Pending, Draft;
    var s := State(mode, events);
    more := StepAlone(mode, events, id, w, v);
    var t := State(mode, more);
    if !t.calls[id].at.Done? {
      assert s.log + [] == s.log;
      more := Finish(mode, more, id, w, v);
      OnwardTwice(s, t, State(mode, more), id, v.added);
    }
  }

  /** Its next step. */
  lemma StepAlone(mode: ReadConcern, events: seq<Event>, id: nat, w: World, v: Outcome) returns (more: seq<Event>)
    requires Run(mode, events) && id in State(mode, events).calls && !State(mode, events).calls[id].at.Done?
    requires var s := State(mode, events); OnTrack(s.log, id, w, v, s.log, s.calls[id])
    ensures events <= more && Run(mode, more)
    ensures var s, t := State(mode, events), State(mode, more);
            var choice := NextStep(s.log, id, w, s.calls[id]);
            && OnlyMoved(s, t, id) && Enabled(mode, id, s.log, s.calls[id], choice)
            && t.log == Grown(id, s.log, s.calls[id], choice)
            && t.calls[id] == Stepped(mode, id, s.log, s.calls[id], choice)
            && Nearer(s.log, id, w, v, t.log, s.calls[id], t.calls[id])
  {
    hide Enabled, Stepped, Sound, OnTrack, Nearer, Draft, NextStep;
    var s := State(mode, events);
    var choice := NextStep(s.log, id, w, s.calls[id]);
    RunIsSound(mode, events);
    NeverStuck(mode, s.log, id, w, v, s.calls[id]);
    CalmStep(mode, s.log, id, w, v, s.calls[id], choice);
    more := events + [Act(id, choice)];
    RunAppend(mode, events, Act(id, choice));
  }

  /** From every reachable state a call can arrive and run to the outcome of the decision table. */
  lemma CallRuns(mode: ReadConcern, events: seq<Event>, id: nat, req: Request, w: World) returns (more: seq<Event>)
    requires Run(mode, events) && req.Admitted() && id !in State(mode, events).calls
    ensures events <= more && Run(mode, more)
    ensures var s, t := State(mode, events), State(mode, more);
            var v := Verdict(s.log, id, req, w);
            Onward(s, t, id, v.added) && t.calls[id].req == req && t.calls[id].at == Done(v.answer)
  {
    hide Run, State, Verdict;
    var s := State(mode, events);
    var v := Verdict(s.log, id, req, w);
    more := Arrival(mode, events, id, req);
    var t := State(mode, more);
    assert s.log + [] == s.log;
    more := Finish(mode, more, id, w, v);
    OnwardTwice(s, t, State(mode, more), id, v.added);
  }

  /** On the way to the refusal of its receiver. */
  predicate Doomed(log: seq<Commit>, c: Call) {
    && c.req.TransferRequest? && !ToSelf(c.req) && c.i == 0
    && Find(log, RefOn(c.req.key, c.req.sender)).None?
    && 0 < c.req.amount <= Balance(log, c.req.sender) && !HasRoom(log, c.req.receiver, c.req.amount)
    && (Rank(c.at) <= 5 || c.at == FailBegin)
  }

  lemma DoomedStep(mode: ReadConcern, log: seq<Commit>, id: nat, w: World, v: Outcome, c: Call)
    requires w.asked.Wallet?
    requires Sound(log) && OnTrack(log, id, w, v, log, c) && Doomed(log, c) && c.at != FailBegin
    requires Enabled(mode, id, log, c, NextStep(log, id, w, c))
    ensures Doomed(log, Stepped(mode, id, log, c, NextStep(log, id, w, c)))
    ensures Grown(id, log, c, NextStep(log, id, w, c)) == log
  {
    hide Sound, Where, Newest, Find, Latest, LoopVerdict, Verdict, OverCapacity, Insufficient, DebitRow, CreditRow;
    assert log[..|log|] == log;
    HeldNow(log, c.req.sender, c.req.amount);
    HeldNow(log, c.req.receiver, c.req.amount);
  }

  lemma ReachRefusal(mode: ReadConcern, events: seq<Event>, id: nat, w: World, v: Outcome) returns (more: seq<Event>)
    requires w.asked.Wallet?
    requires Run(mode, events) && id in State(mode, events).calls
    requires var s := State(mode, events); OnTrack(s.log, id, w, v, s.log, s.calls[id]) && Doomed(s.log, s.calls[id])
    ensures events <= more && Run(mode, more) && Onward(State(mode, events), State(mode, more), id, [])
    ensures var c := State(mode, more).calls[id];
            c.at == FailBegin && c.i == 0 && c.req == State(mode, events).calls[id].req
    decreases 9 - Rank(State(mode, events).calls[id].at)
  {
    hide Run, State, Enabled, Stepped, Sound, OnTrack, NextStep, Find, HasRoom, Balance;
    var s := State(mode, events);
    more := events;
    assert s.log + [] == s.log;
    if s.calls[id].at != FailBegin {
      more := StepAlone(mode, events, id, w, v);
      var t := State(mode, more);
      RunIsSound(mode, events);
      DoomedStep(mode, s.log, id, w, v, s.calls[id]);
      more := ReachRefusal(mode, more, id, w, v);
      OnwardTwice(s, t, State(mode, more), id, []);
    }
  }

  /** A transfer that meets a full receiver leaves the first loop for the one that records the failure. */
  lemma TransferMeetsFull(mode: ReadConcern, events: seq<Event>, id: nat, req: Request) returns (more: seq<Event>)
    requires Run(mode, events) && req.Admitted() && id !in State(mode, events).calls
    requires Doomed(State(mode, events).log, NewCall(req))
    ensures events <= more && Run(mode, more) && Onward(State(mode, events), State(mode, more), id, [])
    ensures var c := State(mode, more).calls[id]; c.req == req && c.at == FailBegin && c.i == 0
  {
    hide Run, State, Verdict, Doomed;
    var s, w := State(mode, events), World(Wallet(""), 0, 0);
    more := Arrival(mode, events, id, req);
    var t := State(mode, more);
    assert s.log + [] == s.log;
    more := ReachRefusal(mode, more, id, w, Verdict(s.log, id, req, w));
    OnwardTwice(s, t, State(mode, more), id, []);
  }

  /** If by then its key is taken, by whatever row, it can only answer that the receiver could not accept. */
  lemma RecordMeetsDuplicate(mode: ReadConcern, events: seq<Event>, id: nat) returns (more: seq<Event>)
    requires Run(mode, events) && id in State(mode, events).calls
    requires var log, c := State(mode, events).log, State(mode, events).calls[id];
             c.at == FailBegin && c.i == 0 && RefTaken(log, c.req.key)
    ensures events <= more && Run(mode, more) && Onward(State(mode, events), State(mode, more), id, [])
    ensures State(mode, more).calls[id].at == Done(Failure(ErrHalfTransferFail))
    ensures State(mode, more).calls[id].req == State(mode, events).calls[id].req
  {
    hide Run, State, CallOk, RefTaken, Latest;
    var s, w := State(mode, events), World(Wallet(""), 0, 0);
    RunCallOk(mode, events, id);
    LoopHasHistory(mode, s.log, id, s.calls[id]);
    more := Finish(mode, events, id, w, RecordVerdict(s.log, id, s.calls[id].req, w));
  }

  /* ---------- Three phones ---------- */

  lemma NoHit(log: seq<Commit>, key: Key, p: Phone)
    requires !RefTaken(log, key)
    ensures Find(log, RefOn(key, p)).None?
  {
    hide Where;
    if Find(log, RefOn(key, p)).Some? {
      var r := Where(log, RefOn(key, p))[0];
      assert r in Where(log, RefOn(key, p));
      WhereHits(log, RefOn(key, p), r);
      WhereHits(log, WithRef(key), r);
    }
  }

  const ALICE: Phone := "01000000001"
  const BOB: Phone := "01100000002"
  const CAROL: Phone := "01200000003"

  lemma DifferentPhones()
    ensures ALICE != BOB && BOB != CAROL && CAROL != ALICE
  {
    assert ALICE[2] != BOB[2] && BOB[2] != CAROL[2] && CAROL[2] != ALICE[2];
  }

  /** After a commit, its keys are taken and the others are as before. */
  lemma TakenAppend(log: seq<Commit>, x: Commit, key: Key)
    ensures RefTaken(log + [x], key) <==> RefTaken(log, key) || exists r :: r in Rows(x) && r.ref == key
  {
    hide Where;
    WhereAppend(log, x, WithRef(key));
    PickRows(WithRef(key), x);
    if x.One? { assert x.row in Rows(x); } else { assert x.debit in Rows(x) && x.credit in Rows(x); }
  }

  /** The balances after a single row is committed. */
  lemma OneAppended(log: seq<Commit>, x: Commit, p: Phone)
    requires Sound(log + [x]) && x.One?
    ensures Balance(log + [x], x.row.phone) == x.row.after
    ensures p != x.row.phone ==> Latest(log + [x], p) == Latest(log, p)
  {
    hide Where, Newest, Sound, RowFits, ShapeOk, Latest;
    SoundPrefix(log + [x], |log|);
    assert (log + [x])[..|log|] == log;
    assert x.row in Rows(x);
    BalanceSet(log, x, x.row);
    if p != x.row.phone {
      BalanceKept(log, x, p);
    }
  }

  /** A deposit or withdrawal that the bank accepts moves its own phone's balance and takes its key. */
  lemma OwnerMoves(mode: ReadConcern, events: seq<Event>, id: nat, req: Request) returns (more: seq<Event>)
    requires Run(mode, events) && req.Admitted() && id !in State(mode, events).calls && !req.TransferRequest?
    requires Payable(State(mode, events).log, req) && !RefTaken(State(mode, events).log, req.key)
    ensures events <= more && Run(mode, more)
    ensures var s, t := State(mode, events), State(mode, more);
            var row := OwnerRow(Latest(s.log, req.phone), req, WalletFor(s.log, req.phone, Wallet("w")), id);
            && Onward(s, t, id, [One(id, row)]) && t.calls[id].req == req && t.calls[id].at.Done?
            && Balance(t.log, req.phone)
               == Balance(s.log, req.phone) + (if req.DepositRequest? then req.amount else -req.amount)
            && (forall p :: p != req.phone ==> Balance(t.log, p) == Balance(s.log, p))
            && (forall k :: RefTaken(t.log, k) <==> RefTaken(s.log, k) || k == req.key)
  {
    hide Run, State, Sound, Where, Newest, Find, Latest, RefTaken, Wrap;
    var s, w := State(mode, events), World(Wallet("w"), id, 0);
    NoHit(s.log, req.key, req.phone);
    RunIsSound(mode, events);
    more := CallRuns(mode, events, id, req, w);
    var x := One(id, OwnerRow(Latest(s.log, req.phone), req, WalletFor(s.log, req.phone, Wallet("w")), id));
    ChainInvariant(s.log, req.phone);
    NoOverflow(Balance(s.log, req.phone), req.amount);
    RunIsSound(mode, more);
    OneCommitted(s.log, x);
  }

  lemma OneCommitted(log: seq<Commit>, x: Commit)
    requires Sound(log + [x]) && x.One?
    ensures Balance(log + [x], x.row.phone) == x.row.after
    ensures forall p :: p != x.row.phone ==> Balance(log + [x], p) == Balance(log, p)
    ensures forall k :: RefTaken(log + [x], k) <==> RefTaken(log, k) || k == x.row.ref
  {
    hide Sound, Where, Newest, Latest, RefTaken;
    OneAppended(log, x, x.row.phone);
    forall p | p != x.row.phone ensures Balance(log + [x], p) == Balance(log, p) {
      OneAppended(log, x, p);
    }
    forall k ensures RefTaken(log + [x], k) <==> RefTaken(log, k) || k == x.row.ref {
      TakenAppend(log, x, k);
      assert x.row in Rows(x);
    }
  }

  /** A transfer under a free key that the receiver cannot take records its refusal and moves no balance. */
  lemma RefusalCommits(mode: ReadConcern, events: seq<Event>, id: nat, req: Request) returns (more: seq<Event>)
    requires Run(mode, events) && req.Admitted() && id !in State(mode, events).calls
    requires Doomed(State(mode, events).log, NewCall(req)) && !RefTaken(State(mode, events).log, req.key)
    ensures events <= more && Run(mode, more)
    ensures var s, t := State(mode, events), State(mode, more);
            && id in t.calls && t.calls.Keys == s.calls.Keys + {id}
            && (forall o :: o in s.calls ==> t.calls[o] == s.calls[o])
            && t.calls[id].req == req && t.calls[id].at == Done(Failure(ErrHalfTransferFail))
            && (forall p :: Balance(t.log, p) == Balance(s.log, p))
            && (forall k :: RefTaken(t.log, k) <==> RefTaken(s.log, k) || k == req.key)
            && RefusalRecorded(t.log, req)
  {
    hide Run, State, Sound, Where, Newest, Find, Latest, RefTaken, RefusalRecorded, Verdict;
    var s, w := State(mode, events), World(Wallet(""), 0, 0);
    RefusalVerdict(s.log, id, req, w);
    more := CallRuns(mode, events, id, req, w);
    var x := One(id, FailedRow(Latest(s.log, req.sender).value, req, 0));
    assert State(mode, more).log == s.log + [x];
    RunIsSound(mode, more);
    OneCommitted(s.log, x);
    RefusalAppended(s.log, id, req, w);
  }

  lemma RefusalVerdict(log: seq<Commit>, id: nat, req: Request, w: World)
    requires w.asked.Wallet?
    requires Doomed(log, NewCall(req))
    ensures Latest(log, req.sender).Some? && Verdict(log, id, req, w) == RecordVerdict(log, id, req, w)
  {
    hide Where, Newest, Find, Latest, RefTaken, RecordVerdict;
  }

  const TEN := DepositRequest(ALICE, 10, "a")
  const CAROLS_TEN := DepositRequest(CAROL, 10, "c")
  const SEND := TransferRequest(ALICE, BOB, 5, "k")

  function Fill(key: Key): Request {
    DepositRequest(BOB, WALLET_MAX, key)
  }

  /** What the three phones hold, and the keys taken. */
  ghost predicate Books(log: seq<Commit>, alice: int, bob: int, carol: int, keys: set<Key>) {
    && Balance(log, ALICE) == alice && Balance(log, BOB) == bob && Balance(log, CAROL) == carol
    && forall k: Key :: RefTaken(log, k) <==> k in keys
  }

  predicate AllDone(s: System) {
    forall o :: o in s.calls ==> s.calls[o].at.Done?
  }

  /** Alice holds 10, deposited under "a", and Bob holds the maximum, deposited under the given key. */
  lemma BothFunded(mode: ReadConcern, key: Key) returns (events: seq<Event>)
    requires key != "a" && key != ""
    ensures Run(mode, events)
    ensures var s := State(mode, events);
            && s.calls.Keys == {0, 1} && AllDone(s) && Books(s.log, 10, WALLET_MAX, 0, {"a", key})
            && |s.log| == 2 && s.log[1].One? && s.log[1].row.ref == key && s.log[1].row.phone == BOB
            && s.log[1].row.status == Posted
  {
    hide Run, State, Sound, Where, Newest, Find, Latest, RefTaken, Balance, Wrap;
    DifferentPhones();
    NothingYet(mode);
    events := OwnerMoves(mode, [], 0, TEN);
    var s := State(mode, events);
    events := OwnerMoves(mode, events, 1, Fill(key));
    var row := OwnerRow(Latest(s.log, BOB), Fill(key), WalletFor(s.log, BOB, Wallet("w")), 1);
    assert |s.log| == 1 && State(mode, events).log == s.log + [One(1, row)];
  }

  lemma NothingYet(mode: ReadConcern)
    ensures Run(mode, []) && State(mode, []) == System([], map[])
    ensures Books([], 0, 0, 0, {})
  {
  }

  /** A committed row is what the lookup by its reference finds. */
  lemma CommittedIsFound(log: seq<Commit>, i: nat, r: Row)
    requires Sound(log) && i < |log| && r in Rows(log[i])
    ensures Find(log, WithRef(r.ref)) == Some(r)
    ensures forall p :: p != r.phone ==> Find(log, RefOn(r.ref, p)).None?
  {
    hide Where, Sound, Find;
    RowsCommitted(log, i, r);
    SameReferenceSameRow(log, r, r);
    forall p | p != r.phone ensures Find(log, RefOn(r.ref, p)).None? {
      FindOnPhone(log, r.ref, p);
      FoundOnPhone(log, r.ref, p);
    }
  }

  lemma FoundOnPhone(log: seq<Commit>, ref: Key, p: Phone)
    ensures Find(log, RefOn(ref, p)).Some? ==> Find(log, RefOn(ref, p)).value.phone == p
  {
    hide Where;
    if Find(log, RefOn(ref, p)).Some? {
      var r := Where(log, RefOn(ref, p))[0];
      assert r in Where(log, RefOn(ref, p));
      WhereHits(log, RefOn(ref, p), r);
    }
  }

  /* ---------- Answers that mislead ---------- */

  /** Every state in which an undisturbed transfer will mislead is one from which it can. */
  lemma Mislead(mode: ReadConcern, events: seq<Event>, id: nat, req: Request) returns (more: seq<Event>)
    requires Run(mode, events) && id !in State(mode, events).calls
    requires req.TransferRequest? && req.Admitted() && WillMislead(State(mode, events).log, req, Wallet(""))
    ensures events <= more && Run(mode, more)
    ensures var s, t := State(mode, events), State(mode, more);
            && Onward(s, t, id, []) && t.calls[id].req == req && t.calls[id].at == Done(Failure(ErrHalfTransferFail))
            && t.log == s.log && !RefusalRecorded(t.log, req)
  {
    hide Run, State, Sound, Verdict, WillMislead, RefusalRecorded;
    var s, w := State(mode, events), World(Wallet(""), 0, 0);
    RunIsSound(mode, events);
    MisleadsAloneIff(s.log, id, req, w);
    more := CallRuns(mode, events, id, req, w);
    assert s.log + [] == s.log;
  }

  /** The key of an earlier, completed deposit to Bob is used again for a transfer from Alice. No two calls
      with that key are ever in flight together and no receiver leg takes it; yet the transfer answers that
      the receiver could not accept while no FAILED row holds the key: EarlyCheck looks for the key on
      Alice's phone only, and the failure loop takes any duplicate for its own. */
  lemma OtherPhoneMisleads(mode: ReadConcern) returns (quiet: seq<Event>, events: seq<Event>)
    ensures quiet <= events && Run(mode, quiet) && Run(mode, events)
    ensures var s, t := State(mode, quiet), State(mode, events);
            && AllDone(s) && Onward(s, t, 2, []) && 2 !in s.calls && t.calls[2].req == SEND
            && t.calls[2].at == Done(Failure(ErrHalfTransferFail))
            && PostedUnder(t.log, SEND.key) && !RefusalRecorded(t.log, SEND)
  {
    hide Where, Newest, Find, Sound, RefTaken, Latest, Run, State, Balance;
    DifferentPhones();
    quiet := BothFunded(mode, "k");
    var s := State(mode, quiet);
    RunIsSound(mode, quiet);
    assert s.log[1].row in Rows(s.log[1]);
    CommittedIsFound(s.log, 1, s.log[1].row);
    events := Mislead(mode, quiet, 2, SEND);
  }

  const CAROLS_SEND := TransferRequest(CAROL, BOB, 5, "k")

  /** While Bob is full, a transfer to him under the free key "k" is bound to be refused. */
  lemma BobIsFull(log: seq<Commit>, carol: int, keys: set<Key>, req: Request)
    requires Books(log, 10, WALLET_MAX, carol, keys) && "k" !in keys
    requires req == SEND || (req == CAROLS_SEND && carol == 10)
    ensures Doomed(log, NewCall(req)) && !RefTaken(log, "k")
  {
    hide Find, RefTaken, Balance;
    DifferentPhones();
    NoHit(log, "k", req.sender);
  }

  /** Alice and Carol hold 10 each, and Bob is full. */
  lemma CarolFunded(mode: ReadConcern) returns (events: seq<Event>)
    ensures Run(mode, events)
    ensures var s := State(mode, events);
            s.calls.Keys == {0, 1, 2} && AllDone(s) && Books(s.log, 10, WALLET_MAX, 10, {"a", "b", "c"})
  {
    hide RefTaken, Run, State, Balance, OwnerRow, WalletFor, Latest;
    DifferentPhones();
    events := BothFunded(mode, "b");
    events := OwnerMoves(mode, events, 2, CAROLS_TEN);
  }

  /** Carol's transfer to a full Bob has been refused under "k"; Alice and Carol hold 10 each. */
  lemma CarolRefused(mode: ReadConcern) returns (events: seq<Event>)
    ensures Run(mode, events)
    ensures var s := State(mode, events);
            && s.calls.Keys == {0, 1, 2, 3} && AllDone(s) && s.calls[3].req == CAROLS_SEND
            && Books(s.log, 10, WALLET_MAX, 10, {"a", "b", "c", "k"})
            && RefusalRecorded(s.log, CAROLS_SEND)
  {
    hide RefTaken, Run, State, Balance, RefusalRecorded, Doomed;
    events := CarolFunded(mode);
    BobIsFull(State(mode, events).log, 10, {"a", "b", "c"}, CAROLS_SEND);
    events := RefusalCommits(mode, events, 3, CAROLS_SEND);
  }

  /** Carol's key is used again by Alice, for a transfer to the same full Bob: the failure loop takes Carol's
      refusal for its own, and nothing is recorded of Alice's. */
  lemma OtherSenderMisleads(mode: ReadConcern) returns (quiet: seq<Event>, events: seq<Event>)
    ensures quiet <= events && Run(mode, quiet) && Run(mode, events)
    ensures var s, t := State(mode, quiet), State(mode, events);
            && AllDone(s) && Onward(s, t, 4, []) && 4 !in s.calls && t.calls[4].req == SEND
            && t.calls[4].at == Done(Failure(ErrHalfTransferFail))
            && !PostedUnder(t.log, SEND.key) && !RefusalRecorded(t.log, SEND)
  {
    hide Where, Newest, Find, Sound, RefTaken, Latest, Run, State, Balance;
    DifferentPhones();
    quiet := CarolRefused(mode);
    events := Mislead(mode, quiet, 4, SEND);
  }

  const SEND_CAROL := TransferRequest(ALICE, CAROL, 5, "k")

  /** Or for a transfer to Carol, who has room: the first loop does look at the stored row, but not at its
      phone, and answers that Carol could not accept. */
  lemma OtherSenderReplayMisleads(mode: ReadConcern) returns (quiet: seq<Event>, events: seq<Event>)
    ensures quiet <= events && Run(mode, quiet) && Run(mode, events)
    ensures var s, t := State(mode, quiet), State(mode, events);
            && AllDone(s) && Onward(s, t, 4, []) && 4 !in s.calls && t.calls[4].req == SEND_CAROL
            && HasRoom(s.log, CAROL, 5) && t.calls[4].at == Done(Failure(ErrHalfTransferFail))
            && !PostedUnder(t.log, SEND_CAROL.key) && !RefusalRecorded(t.log, SEND_CAROL)
  {
    hide Where, Newest, Find, Sound, RefTaken, Latest, Run, State, Balance;
    DifferentPhones();
    quiet := CarolRefused(mode);
    events := Mislead(mode, quiet, 4, SEND_CAROL);
  }

  /** The key of Carol's refused transfer is used again for a deposit, of 5 to Carol herself or to Alice: the
      call answers a success whose status is FAILED and whose balance is Carol's, and deposits nothing. */
  lemma RefusedKeyAnswersSuccess(mode: ReadConcern, p: Phone) returns (quiet: seq<Event>, events: seq<Event>)
    requires p == CAROL || p == ALICE
    ensures quiet <= events && Run(mode, quiet) && Run(mode, events)
    ensures var s, t := State(mode, quiet), State(mode, events);
            && AllDone(s) && Onward(s, t, 4, []) && 4 !in s.calls && t.calls[4].req == DepositRequest(p, 5, "k")
            && t.calls[4].at.Done? && t.calls[4].at.answer.WalletResponse? && t.calls[4].at.answer.status == Failed
            && t.log == s.log
  {
    hide Where, Newest, Find, Sound, RefTaken, Latest, Run, State, Balance, Verdict;
    DifferentPhones();
    quiet := CarolRefused(mode);
    var s, req, w := State(mode, quiet), DepositRequest(p, 5, "k"), World(Wallet(""), 0, 0);
    RunIsSound(mode, quiet);
    FailedSuccessAloneIff(s.log, 4, req, w);
    events := CallRuns(mode, quiet, 4, req, w);
    assert s.log + [] == s.log;
  }

  const TAKE := WithdrawalRequest(BOB, 5, "w")

  /** Alice's first transfer has met a full Bob. */
  lemma AliceWaits(mode: ReadConcern) returns (events: seq<Event>)
    ensures Run(mode, events)
    ensures var s := State(mode, events);
            && s.calls.Keys == {0, 1, 2}
            && s.calls[2].req == SEND && s.calls[2].at == FailBegin && s.calls[2].i == 0
            && Books(s.log, 10, WALLET_MAX, 0, {"a", "b"})
  {
    hide Run, State, Doomed, Books;
    events := BothFunded(mode, "b");
    var log := State(mode, events).log;
    BobIsFull(log, 0, {"a", "b"}, SEND);
    events := TransferMeetsFull(mode, events, 2, SEND);
    assert State(mode, events).log == log;
  }

  /** Then Bob withdraws 5. */
  lemma FirstMeetsFull(mode: ReadConcern) returns (events: seq<Event>)
    ensures Run(mode, events)
    ensures var s := State(mode, events);
            && s.calls.Keys == {0, 1, 2, 3}
            && s.calls[2].req == SEND && s.calls[2].at == FailBegin && s.calls[2].i == 0
            && Books(s.log, 10, WALLET_MAX - 5, 0, {"a", "b", "w"})
  {
    hide RefTaken, Latest, Run, State, Balance, OwnerRow, WalletFor;
    DifferentPhones();
    events := AliceWaits(mode);
    events := OwnerMoves(mode, events, 3, TAKE);
  }

  lemma TwoAppended(log: seq<Commit>, x: Commit)
    requires Sound(log + [x]) && x.Two?
    ensures Balance(log + [x], x.debit.phone) == x.debit.after
    ensures Find(log + [x], WithRef(x.debit.ref)) == Some(x.debit)
  {
    hide Where, Newest, Sound, RowFits, ShapeOk, Latest, Find, Balance;
    SoundPrefix(log + [x], |log|);
    assert (log + [x])[..|log|] == log;
    assert x.debit in Rows(x);
    BalanceSet(log, x, x.debit);
    CommittedIsFound(log + [x], |log|, x.debit);
  }

  lemma SendVerdictNow(log: seq<Commit>, id: nat, req: Request, w: World)
    requires w.asked.Wallet?
    requires req.TransferRequest? && req.Admitted() && !ToSelf(req) && Payable(log, req)
    requires !RefTaken(log, req.key) && !RefTaken(log, req.key + DEPOSIT_SUFFIX)
    ensures var v := Verdict(log, id, req, w);
            && v.answer.TransferResponse? && |v.added| == 1 && v.added[0].Two?
            && v.added[0].debit.ref == req.key && v.added[0].debit.phone == req.sender
            && v.added[0].debit.after == Wrap(Balance(log, req.sender) - req.amount)
            && v.added[0].debit.status == Posted
  {
    hide Where, Newest, Latest, Find, RefTaken, Wrap;
    NoHit(log, req.key, req.sender);
  }

  /** Two requests with the same key in flight together. The first meets a full receiver and goes to record
      the failure; before it does, Bob withdraws and the second posts the transfer. The first then answers
      that the receiver could not accept, although Alice's money has moved under that very key. */
  lemma InFlightMisleads(mode: ReadConcern) returns (events: seq<Event>)
    ensures Run(mode, events)
    ensures var s := State(mode, events);
            && 2 in s.calls && 4 in s.calls && s.calls[2].req == s.calls[4].req == SEND
            && s.calls[2].at == Done(Failure(ErrHalfTransferFail))
            && s.calls[4].at.Done? && s.calls[4].at.answer.TransferResponse?
            && PostedUnder(s.log, SEND.key) && !RefusalRecorded(s.log, SEND)
            && Balance(s.log, ALICE) == 5
  {
    hide Where, Newest, Find, Sound, RefTaken, Latest, Run, State, Balance, Verdict;
    DifferentPhones();
    events := FirstMeetsFull(mode);
    var s, w := State(mode, events), World(Wallet(""), 3, 4);
    assert |SEND.key + DEPOSIT_SUFFIX| == 9;
    SendVerdictNow(s.log, 4, SEND, w);
    var x := Verdict(s.log, 4, SEND, w).added[0];
    events := CallRuns(mode, events, 4, SEND, w);
    var t := State(mode, events);
    assert t.log == s.log + [x];
    RunIsSound(mode, events);
    TwoAppended(s.log, x);
    TakenAppend(s.log, x, SEND.key);
    assert x.debit in Rows(x);
    events := RecordMeetsDuplicate(mode, events, 2);
    assert t.log + [] == t.log;
  }
}
