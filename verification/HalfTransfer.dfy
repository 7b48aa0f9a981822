/** What ErrHalfTransferFail means, when it does not mean it, and who else sees the row of a refused transfer. */
module HalfTransfer {
  import opened Model
  import opened Ledger
  import opened Protocol
  import opened Safety
  import opened Undisturbed

  /** A FAILED transfer row of the sender holds the key, and it left the sender's balance as it was. */
  predicate RefusalRecorded(log: seq<Commit>, req: Request)
    requires req.TransferRequest?
  {
    var found := Find(log, WithRef(req.key));
    found.Some? && IsRefusal(found.value) && found.value.phone == req.sender && found.value.after == found.value.before
  }

  predicate PostedUnder(log: seq<Commit>, key: Key) {
    var found := Find(log, WithRef(key));
    found.Some? && found.value.status == Posted
  }

  lemma FoundRowOk(log: seq<Commit>, key: Key)
    requires Sound(log) && Find(log, WithRef(key)).Some?
    ensures var r := Find(log, WithRef(key)).value;
            r.ref == key && RowOk(r) && (r.status == Failed ==> IsRefusal(r))
  {
    hide Sound, Where, RowOk;
    var r := Where(log, WithRef(key))[0];
    assert r in Where(log, WithRef(key));
    WhereHits(log, WithRef(key), r);
    var i := CommittedBy(log, r);
    SoundPrefix(log, i);
    RowShape(log[..i], log[i], r);
  }

  lemma RowShape(log: seq<Commit>, c: Commit, r: Row)
    requires Fits(log, c) && r in Rows(c)
    ensures RowOk(r) && (r.status == Failed ==> IsRefusal(r))
  {
    hide Where, Balance, RefTaken;
  }

  lemma RefusalIsFlat(row: Row)
    requires RowOk(row)
    ensures row.status == Failed ==> row.after == row.before
  {
  }

  /** The refusal is recorded if and only if the row under the key is a FAILED one of the sender's. */
  lemma RecordedIff(log: seq<Commit>, req: Request)
    requires Sound(log) && req.TransferRequest?
    ensures var held := Find(log, WithRef(req.key));
            RefusalRecorded(log, req) <==> held.Some? && held.value.status == Failed && held.value.phone == req.sender
  {
    hide Sound, Where, Find, RowOk;
    if Find(log, WithRef(req.key)).Some? {
      FoundRowOk(log, req.key);
      RefusalIsFlat(Find(log, WithRef(req.key)).value);
    }
  }

  /* ---------- The three branches that answer ErrHalfTransferFail ---------- */

  /** EarlyCheck filters on the sender's phone: what it answers is honest. */
  lemma EarlyCheckIsHonest(mode: ReadConcern, events: seq<Event>, id: nat)
    requires Run(mode, events) && Possible(mode, State(mode, events), Act(id, Go))
    requires var c := State(mode, events).calls[id]; c.at == Early && c.req.TransferRequest? && !ToSelf(c.req)
    ensures Run(mode, events + [Act(id, Go)])
    ensures var log, req := State(mode, events).log, State(mode, events).calls[id].req;
            var after := State(mode, events + [Act(id, Go)]);
            after.calls[id].at == Done(Failure(ErrHalfTransferFail)) <==> RefusalRecorded(log, req)
  {
    hide Where, Newest, Sound, Latest, Run, State, Find;
    RunAppend(mode, events, Act(id, Go));
    RunIsSound(mode, events);
    var log, req := State(mode, events).log, State(mode, events).calls[id].req;
    RecordedIff(log, req);
    OnPhoneIff(log, req.key, req.sender);
  }

  /** The lookup by key and phone finds the row under the key exactly when that row is the phone's. */
  lemma OnPhoneIff(log: seq<Commit>, key: Key, p: Phone)
    requires Sound(log)
    ensures var held := Find(log, WithRef(key));
            Find(log, RefOn(key, p)) == if held.Some? && held.value.phone == p then held else None
  {
    hide Sound, Where;
    FindOnPhone(log, key, p);
    var held, hit := Find(log, WithRef(key)), Find(log, RefOn(key, p));
    if hit.Some? {
      assert hit.value in Where(log, RefOn(key, p));
      WhereHits(log, RefOn(key, p), hit.value);
    } else if held.Some? && held.value.phone == p {
      assert held.value in Where(log, WithRef(key));
      WhereHits(log, WithRef(key), held.value);
      WhereHits(log, RefOn(key, p), held.value);
    }
  }

  /** After a duplicate reference in the first loop, the stored row is looked at, but not its phone: a FAILED
      row of any sender makes the call answer ErrHalfTransferFail, truthfully only if it is this sender's. */
  lemma ReplayBranchIsHonestIff(mode: ReadConcern, events: seq<Event>, id: nat)
    requires Run(mode, events) && Possible(mode, State(mode, events), Act(id, Go))
    requires var c := State(mode, events).calls[id]; c.at == Replay && c.req.TransferRequest?
    ensures Run(mode, events + [Act(id, Go)])
    ensures var log, req := State(mode, events).log, State(mode, events).calls[id].req;
            var held, after := Find(log, WithRef(req.key)), State(mode, events + [Act(id, Go)]);
            && after.log == log
            && (after.calls[id].at == Done(Failure(ErrHalfTransferFail)) <==> held.Some? && held.value.status == Failed)
            && (held.Some? && held.value.status == Failed ==>
                  (RefusalRecorded(after.log, req) <==> held.value.phone == req.sender))
  {
    hide Where, Newest, Sound, Latest, Run, State, Find;
    RunAppend(mode, events, Act(id, Go));
    RunIsSound(mode, events);
    RecordedIff(State(mode, events).log, State(mode, events).calls[id].req);
  }

  /** Whether the insert of the FAILED row commits or meets a duplicate reference, the call answers
      ErrHalfTransferFail. The sender's refusal is then recorded if and only if the key was free, or already held
      by a FAILED row of this sender: the test the branch leaves out. */
  lemma RecordBranchIsHonestIff(mode: ReadConcern, events: seq<Event>, id: nat, choice: Choice)
    requires Run(mode, events) && Possible(mode, State(mode, events), Act(id, choice))
    requires State(mode, events).calls[id].at == FailInsert
    requires choice.Write? || choice.RefusedReference?
    ensures Run(mode, events + [Act(id, choice)]) && State(mode, events).calls[id].req.TransferRequest?
    ensures var log, req := State(mode, events).log, State(mode, events).calls[id].req;
            var held, after := Find(log, WithRef(req.key)), State(mode, events + [Act(id, choice)]);
            && after.calls[id].at == Done(Failure(ErrHalfTransferFail))
            && (RefusalRecorded(after.log, req)
                <==> held.None? || (held.value.status == Failed && held.value.phone == req.sender))
  {
    hide Where, Newest, Sound, Owned, Truthful, Latest, Run, State, HitsSequence, RefusalRecorded, Possible, Next;
    RunAppend(mode, events, Act(id, choice));
    RunKeepsInvariant(mode, events);
    RunIsSound(mode, events + [Act(id, choice)]);
    var s := State(mode, events);
    FailInsertDone(mode, s, id, choice);
    RecordedIff(State(mode, events + [Act(id, choice)]).log, s.calls[id].req);
    RecordBranchHolder(mode, s.log, id, s.calls[id], choice);
  }

  lemma FailInsertDone(mode: ReadConcern, s: System, id: nat, choice: Choice)
    requires Possible(mode, s, Act(id, choice)) && s.calls[id].at == FailInsert
    requires choice.Write? || choice.RefusedReference?
    ensures id in s.calls && Enabled(mode, id, s.log, s.calls[id], choice)
    ensures var t := Next(mode, s, Act(id, choice));
            && t.calls[id].at == Done(Failure(ErrHalfTransferFail)) && t.calls[id].req == s.calls[id].req
            && t.log == Grown(id, s.log, s.calls[id], choice)
  {
    hide Draft, HitsReference, HitsSequence;
  }

  lemma RecordBranchHolder(mode: ReadConcern, log: seq<Commit>, id: nat, c: Call, choice: Choice)
    requires CallOk(mode, log, id, c) && c.at == FailInsert && Enabled(mode, id, log, c, choice)
    requires choice.Write? || choice.RefusedReference?
    ensures c.req.TransferRequest?
    ensures choice.RefusedReference? ==> Find(log, WithRef(c.req.key)).Some?
    ensures choice.Write? ==> Find(log, WithRef(c.req.key)).None?
    ensures choice.Write? ==>
              var found := Find(Grown(id, log, c, choice), WithRef(c.req.key));
              found.Some? && found.value.status == Failed && found.value.phone == c.req.sender
  {
    hide Where, Newest, Owned, Truthful, Latest, HitsSequence;
    if choice.Write? {
      OwnRowFound(mode, id, log, c, choice);
    } else {
      DuplicateMeansTaken(id, log, c);
    }
  }

  /* ---------- Who holds the key ---------- */

  /** A transfer that committed its refusal under the key. */
  predicate RefusedFor(c: Call, key: Key) {
    c.mine.Some? && c.req.TransferRequest? && c.req.key == key && c.at == Done(Failure(ErrHalfTransferFail))
  }

  /** A call that committed a POSTED row under the key, be it the receiver leg of a transfer. */
  predicate PostedFor(c: Call, key: Key) {
    && c.mine.Some? && c.at.Done? && !c.at.answer.Failure?
    && (c.req.key == key || (c.req.TransferRequest? && c.req.key + DEPOSIT_SUFFIX == key))
  }

  /** The row a call committed under a key is the one the lookup by the key finds. */
  lemma CommittedIsHeld(log: seq<Commit>, j: nat, row: Row)
    requires Sound(log) && j < |log| && row in Rows(log[j])
    ensures Find(log, WithRef(row.ref)) == Some(row)
  {
    hide Sound, Where, Find, Rows;
    RowsCommitted(log, j, row);
    SameReferenceSameRow(log, row, row);
  }

  lemma RefusedHolds(mode: ReadConcern, log: seq<Commit>, a: nat, c: Call, key: Key)
    requires Sound(log) && CallOk(mode, log, a, c) && RefusedFor(c, key)
    ensures var held := Find(log, WithRef(key));
            held.Some? && held.value.status == Failed && held.value.phone == c.req.sender
  {
    hide Sound, Where, Find, Built, Truthful;
    CommittedIsHeld(log, c.mine.value, log[c.mine.value].row);
  }

  lemma PostedHolds(mode: ReadConcern, log: seq<Commit>, a: nat, c: Call, key: Key)
    requires Sound(log) && CallOk(mode, log, a, c) && PostedFor(c, key)
    ensures var held := Find(log, WithRef(key)); held.Some? && held.value.status == Posted
  {
    hide Sound, Where, Find, Built, Truthful;
    var x := log[c.mine.value];
    if x.One? {
      CommittedIsHeld(log, c.mine.value, x.row);
    } else {
      CommittedIsHeld(log, c.mine.value, if c.req.key == key then x.debit else x.credit);
    }
  }

  lemma AuthorHolds(mode: ReadConcern, log: seq<Commit>, a: nat, c: Call, j: nat, row: Row)
    requires CallOk(mode, log, a, c) && j < |log| && log[j].author == a && row in Rows(log[j])
    ensures RefusedFor(c, row.ref) || PostedFor(c, row.ref)
  {
    hide Where, Built, Truthful, RowOk;
    assert c.mine == Some(j);
  }

  /** The row under a key was committed by exactly one kind of call: one that posted it, or a refused transfer. */
  lemma HolderOf(mode: ReadConcern, events: seq<Event>, key: Key) returns (a: nat)
    requires Run(mode, events) && RefTaken(State(mode, events).log, key)
    ensures a in State(mode, events).calls
    ensures RefusedFor(State(mode, events).calls[a], key) || PostedFor(State(mode, events).calls[a], key)
  {
    hide Sound, Where, Run, State, CallOk, RefusedFor, PostedFor;
    RunKeepsInvariant(mode, events);
    var s := State(mode, events);
    var row := Where(s.log, WithRef(key))[0];
    assert row in Where(s.log, WithRef(key));
    WhereHits(s.log, WithRef(key), row);
    var j := CommittedBy(s.log, row);
    a := s.log[j].author;
    AuthorHolds(mode, s.log, a, s.calls[a], j, row);
  }

  /** However a call came to answer ErrHalfTransferFail, the sender's refusal is recorded if and only if this
      call or another transfer of the same sender committed it under the key; it is not if and only if another
      call took the key for a POSTED row or for the refusal of another sender. */
  lemma HalfTransferIsHonestIff(mode: ReadConcern, events: seq<Event>, id: nat)
    requires Run(mode, events) && id in State(mode, events).calls
    requires State(mode, events).calls[id].at == Done(Failure(ErrHalfTransferFail))
    ensures State(mode, events).calls[id].req.TransferRequest?
    ensures var log, calls := State(mode, events).log, State(mode, events).calls;
            var req := calls[id].req;
            && RefTaken(log, req.key)
            && (RefusalRecorded(log, req)
                <==> exists a :: a in calls && RefusedFor(calls[a], req.key) && calls[a].req.sender == req.sender)
            && (!RefusalRecorded(log, req)
                <==> exists a :: a in calls && a != id
                       && (PostedFor(calls[a], req.key)
                           || (RefusedFor(calls[a], req.key) && calls[a].req.sender != req.sender)))
  {
    hide Sound, Where, Run, State, Owned, Built, Find, RefusalRecorded, Balance;
    RunKeepsInvariant(mode, events);
    RunCallOk(mode, events, id);
    var log, calls, req := State(mode, events).log, State(mode, events).calls, State(mode, events).calls[id].req;
    RecordedIff(log, req);
    EveryHolder(mode, log, calls, req.key);
    var a := HolderOf(mode, events, req.key);
    assert a in calls;
  }

  lemma EveryHolder(mode: ReadConcern, log: seq<Commit>, calls: map<nat, Call>, key: Key)
    requires Sound(log) && forall a :: a in calls ==> CallOk(mode, log, a, calls[a])
    ensures forall a :: a in calls && RefusedFor(calls[a], key) ==>
              var held := Find(log, WithRef(key));
              held.Some? && held.value.status == Failed && held.value.phone == calls[a].req.sender
    ensures forall a :: a in calls && PostedFor(calls[a], key) ==>
              var held := Find(log, WithRef(key)); held.Some? && held.value.status == Posted
  {
    hide Sound, Where, Find, CallOk, PostedFor;
    forall a | a in calls && RefusedFor(calls[a], key)
      ensures var held := Find(log, WithRef(key));
              held.Some? && held.value.status == Failed && held.value.phone == calls[a].req.sender
    {
      RefusedHolds(mode, log, a, calls[a], key);
    }
    forall a | a in calls && PostedFor(calls[a], key)
      ensures var held := Find(log, WithRef(key)); held.Some? && held.value.status == Posted
    {
      PostedHolds(mode, log, a, calls[a], key);
    }
  }

  /** A deposit or withdrawal answers a success whose status is FAILED if and only if some transfer, of
      whatever sender, was refused under its key. */
  lemma FailedSuccessIff(mode: ReadConcern, events: seq<Event>, id: nat)
    requires Run(mode, events) && id in State(mode, events).calls && State(mode, events).calls[id].at.Done?
    requires State(mode, events).calls[id].at.answer.WalletResponse?
    ensures var calls := State(mode, events).calls;
            calls[id].at.answer.status == Failed
            <==> exists a :: a in calls && RefusedFor(calls[a], calls[id].req.key)
  {
    hide Sound, Where, Run, State, Owned, Built, Find;
    RunKeepsInvariant(mode, events);
    RunCallOk(mode, events, id);
    var log, calls, req := State(mode, events).log, State(mode, events).calls, State(mode, events).calls[id].req;
    EveryHolder(mode, log, calls, req.key);
    FoundIsTaken(log, req.key);
    var a := HolderOf(mode, events, req.key);
    assert a in calls;
  }

  /* ---------- What a caller can tell beforehand ---------- */

  /** Its parties differ, the sender can pay, the receiver has a wallet, a row of another phone holds the key, and
      that row is FAILED or the receiver is full. */
  predicate WillMislead(log: seq<Commit>, req: Request, asked: WalletAnswer)
    requires req.TransferRequest?
  {
    var held := Find(log, WithRef(req.key));
    && req.sender != req.receiver && req.amount <= Balance(log, req.sender)
    && WalletKnown(log, req.receiver, asked)
    && held.Some? && held.value.phone != req.sender
    && (held.value.status == Failed || !HasRoom(log, req.receiver, req.amount))
  }

  /** A transfer that nobody disturbs answers ErrHalfTransferFail without its sender's refusal being recorded
      exactly in the states that can be told beforehand; it then commits nothing. */
  lemma MisleadsAloneIff(log: seq<Commit>, id: nat, req: Request, w: World)
    requires Sound(log) && req.TransferRequest? && req.Admitted()
    ensures var v := Verdict(log, id, req, w);
            && (v.answer == Failure(ErrHalfTransferFail) && !RefusalRecorded(log + v.added, req)
                <==> WillMislead(log, req, w.asked))
            && (WillMislead(log, req, w.asked) ==> v.added == [])
  {
    hide Sound, Where, Newest, Latest, Find, RefusalRecorded, FailedRow, CreditRow, Wrap, HasRoom;
    var v, held := Verdict(log, id, req, w), Find(log, WithRef(req.key));
    OnPhoneIff(log, req.key, req.sender);
    FoundIsTaken(log, req.key);
    RecordedIff(log, req);
    assert log + [] == log;
    if v.added != [] && v.answer == Failure(ErrHalfTransferFail) {
      RefusalAppended(log, id, req, w);
    }
  }

  lemma RefusalAppended(log: seq<Commit>, id: nat, req: Request, w: World)
    requires req.TransferRequest? && req.sender != req.receiver
    requires Latest(log, req.sender).Some? && !RefTaken(log, req.key)
    ensures RefusalRecorded(log + [One(id, FailedRow(Latest(log, req.sender).value, req, w.rowId))], req)
  {
    hide Where, Newest, Latest;
    var x := One(id, FailedRow(Latest(log, req.sender).value, req, w.rowId));
    WhereAppend(log, x, WithRef(req.key));
    PickRows(WithRef(req.key), x);
    assert Where(log + [x], WithRef(req.key)) == [x.row];
  }

  /** A deposit or withdrawal that nobody disturbs answers a success with status FAILED if and only if a FAILED
      row holds its key, and that row is its own phone's or its wallet is known and the balance lets the request
      through; it then commits nothing. */
  lemma FailedSuccessAloneIff(log: seq<Commit>, id: nat, req: Request, w: World)
    requires Sound(log) && !req.TransferRequest? && req.Admitted()
    ensures var v, held := Verdict(log, id, req, w), Find(log, WithRef(req.key));
            && (v.answer.WalletResponse? && v.answer.status == Failed
                <==> && held.Some? && held.value.status == Failed
                     && (held.value.phone == req.phone || (WalletKnown(log, req.phone, w.asked) && Payable(log, req))))
            && (v.answer.WalletResponse? && v.answer.status == Failed ==> v.added == [])
  {
    hide Sound, Where, Newest, Latest, Find, Wrap;
    OnPhoneIff(log, req.key, req.phone);
    FoundIsTaken(log, req.key);
  }

  /* ---------- Disciplined use of a key ---------- */

  /** Seen from the transfer r: no other call with its key is in flight together with it, those that share
      the key belong to the same phone, and no other transfer's receiver leg takes it. */
  predicate Clean(s: System, r: nat) {
    r in s.calls ==>
      forall o | o in s.calls && o != r ::
        && (s.calls[o].req.key == s.calls[r].req.key ==>
              && s.calls[o].req.Owner() == s.calls[r].req.Owner()
              && (s.calls[o].at.Done? || s.calls[r].at.Done?))
        && (s.calls[o].req.TransferRequest? ==> s.calls[o].req.key + DEPOSIT_SUFFIX != s.calls[r].req.key)
  }

  /** At every moment of the run. */
  predicate AlwaysClean(mode: ReadConcern, events: seq<Event>, r: nat)
    requires Run(mode, events)
  {
    Clean(State(mode, events), r) && (events == [] || AlwaysClean(mode, events[..|events| - 1], r))
  }

  /** A row is under its author's key on its author's phone, or is the receiver leg of its author's transfer. */
  lemma RowOfAuthor(mode: ReadConcern, s: System, i: nat, row: Row)
    requires Inv(mode, s) && i < |s.log| && row in Rows(s.log[i])
    ensures var req := s.calls[s.log[i].author].req;
            || (row.ref == req.key && row.phone == req.Owner())
            || (req.TransferRequest? && row.ref == req.key + DEPOSIT_SUFFIX)
  {
    hide Sound, Built, Truthful, RowFits;
    SoundPrefix(s.log, i);
    assert CallOk(mode, s.log, s.log[i].author, s.calls[s.log[i].author]);
  }

  /** Under the discipline every row that holds r's key is on r's phone. */
  lemma KeyOnOwnPhone(mode: ReadConcern, s: System, r: nat, row: Row)
    requires Inv(mode, s) && Clean(s, r) && r in s.calls
    requires row in Where(s.log, WithRef(s.calls[r].req.key))
    ensures row.phone == s.calls[r].req.Owner()
  {
    hide Sound, Where, CallOk;
    WhereHits(s.log, WithRef(s.calls[r].req.key), row);
    var i := CommittedBy(s.log, row);
    RowOfAuthor(mode, s, i, row);
    SuffixDiffers(s.calls[r].req.key);
  }

  /** While r is in flight after its EarlyCheck its key is free; if it has answered ErrHalfTransferFail,
      the refusal is recorded. */
  predicate Kept(s: System, r: nat) {
    r in s.calls && s.calls[r].req.TransferRequest? && !ToSelf(s.calls[r].req) ==>
      && (s.calls[r].at != Early && !s.calls[r].at.Done? ==> !RefTaken(s.log, s.calls[r].req.key))
      && (s.calls[r].at == Done(Failure(ErrHalfTransferFail)) ==> RefusalRecorded(s.log, s.calls[r].req))
  }

  lemma EarlyCheckKeeps(mode: ReadConcern, s: System, r: nat)
    requires Inv(mode, s) && Clean(s, r) && r in s.calls && s.calls[r].at == Early
    requires s.calls[r].req.TransferRequest? && !ToSelf(s.calls[r].req)
    ensures Kept(s.(calls := s.calls[r := AfterEarlyCheck(s.log, s.calls[r])]), r)
  {
    hide Sound, Where, Newest, Latest, CallOk, RowOk;
    var c := s.calls[r];
    var hit := Find(s.log, RefOn(c.req.key, c.req.sender));
    FindOnPhone(s.log, c.req.key, c.req.sender);
    if hit.Some? {
      FoundRowOk(s.log, c.req.key);
      KeyOnOwnPhone(mode, s, r, hit.value);
      RefusalIsFlat(hit.value);
    } else if RefTaken(s.log, c.req.key) {
      var row := Where(s.log, WithRef(c.req.key))[0];
      assert row in Where(s.log, WithRef(c.req.key));
      KeyOnOwnPhone(mode, s, r, row);
      WhereHits(s.log, WithRef(c.req.key), row);
      WhereHits(s.log, RefOn(c.req.key, c.req.sender), row);
    }
  }

  lemma ReadsDoNotRefuse(log: seq<Commit>, c: Call, k: nat)
    requires k <= |log| && c.req.TransferRequest?
    ensures AfterSee(log, c, k).req == c.req && AfterSee(log, c, k).at != Done(Failure(ErrHalfTransferFail))
  {
    hide Latest, OverCapacity, Insufficient, CreditRow, DebitRow, FailedRow;
  }

  /** The call's own later steps. */
  lemma OwnStepKeeps(mode: ReadConcern, s: System, r: nat, choice: Choice)
    requires Inv(mode, s) && Kept(s, r) && Possible(mode, s, Act(r, choice)) && s.calls[r].at != Early
    requires s.calls[r].req.TransferRequest? && !ToSelf(s.calls[r].req)
    ensures Kept(Next(mode, s, Act(r, choice)), r)
  {
    hide Sound, Where, Truthful, Owned, HitsSequence, HitsReference, DraftReady, AfterSee, AfterEarlyCheck,
      AfterWrite, Draft, RefTaken, RefusalRecorded, Find;
    var c := s.calls[r];
    assert CallOk(mode, s.log, r, c);
    if choice.Write? {
      OwnWriteKeeps(mode, s.log, r, c, choice);
    } else if choice.RefusedReference? {
      DuplicateMeansTaken(r, s.log, c);
    } else if choice.See? {
      ReadsDoNotRefuse(s.log, c, choice.k);
    } else {
      FoundIsTaken(s.log, c.req.key);
    }
  }

  lemma OwnWriteKeeps(mode: ReadConcern, log: seq<Commit>, r: nat, c: Call, choice: Choice)
    requires Sound(log) && CallOk(mode, log, r, c) && Enabled(mode, r, log, c, choice) && choice.Write?
    requires c.req.TransferRequest?
    ensures c.at == FailInsert ==> RefusalRecorded(Grown(r, log, c, choice), c.req)
    ensures var after := Stepped(mode, r, log, c, choice);
            after.at.Done? && after.req == c.req && (c.at != FailInsert ==> !after.at.answer.Failure?)
  {
    hide Sound, Where, Newest, Latest, RowOk, Truthful, Owned, OverCapacity, Insufficient, HitsSequence,
      HitsReference, CreditRow, DebitRow, OwnerRowReady, CreditRowReady, Find;
    OwnRowFound(mode, r, log, c, choice);
  }

  lemma DraftKeys(author: nat, log: seq<Commit>, c: Call, id: nat, creditId: nat, row: Row)
    requires DraftReady(log, c) && (c.at == Insert || c.at == FailInsert)
    requires row in Rows(Draft(author, c, id, creditId))
    ensures row.ref == c.req.key || (c.req.TransferRequest? && row.ref == c.req.key + DEPOSIT_SUFFIX)
  {
    hide Where, Newest, Latest, OverCapacity, Insufficient, Wrap;
  }

  /** A commit of another call in flight does not take r's key. */
  lemma OtherWriteMisses(mode: ReadConcern, s: System, r: nat, author: nat, choice: Choice)
    requires Inv(mode, s) && Clean(s, r) && r in s.calls && !s.calls[r].at.Done?
    requires Possible(mode, s, Act(author, choice)) && author != r && choice.Write?
    requires !RefTaken(s.log, s.calls[r].req.key)
    ensures !RefTaken(Next(mode, s, Act(author, choice)).log, s.calls[r].req.key)
  {
    hide Sound, Where, Newest, Truthful, Owned, DraftReady, Draft, Pick;
    var c, key := s.calls[author], s.calls[r].req.key;
    assert CallOk(mode, s.log, author, c);
    var x := Draft(author, c, choice.id, choice.creditId);
    WhereAppend(s.log, x, WithRef(key));
    PickRows(WithRef(key), x);
    if x.One? {
      DraftKeys(author, s.log, c, choice.id, choice.creditId, x.row);
    } else {
      DraftKeys(author, s.log, c, choice.id, choice.creditId, x.debit);
      DraftKeys(author, s.log, c, choice.id, choice.creditId, x.credit);
    }
  }

  lemma RefusalStable(log: seq<Commit>, x: Commit, req: Request)
    requires req.TransferRequest? && RefusalRecorded(log, req)
    ensures RefusalRecorded(log + [x], req)
  {
    hide Where;
    assert (log + [x])[..|log|] == log;
    FindStable(log + [x], |log|, WithRef(req.key));
  }

  lemma OtherStepKeeps(mode: ReadConcern, s: System, r: nat, e: Event)
    requires Inv(mode, s) && Clean(s, r) && Kept(s, r) && Possible(mode, s, e)
    requires e.Act? ==> e.call != r
    ensures Kept(Next(mode, s, e), r)
  {
    hide Sound, CallOk, RefTaken, RefusalRecorded, Enabled, Stepped, Draft;
    if e.Act? && e.choice.Write? && r in s.calls && s.calls[r].req.TransferRequest? {
      if s.calls[r].at == Done(Failure(ErrHalfTransferFail)) && RefusalRecorded(s.log, s.calls[r].req) {
        RefusalStable(s.log, Draft(e.call, s.calls[e.call], e.choice.id, e.choice.creditId), s.calls[r].req);
      } else if !s.calls[r].at.Done? && !RefTaken(s.log, s.calls[r].req.key) {
        OtherWriteMisses(mode, s, r, e.call, e.choice);
      }
    }
  }

  lemma {:induction false} DisciplineKeeps(mode: ReadConcern, events: seq<Event>, r: nat)
    requires Run(mode, events) && AlwaysClean(mode, events, r)
    ensures Kept(State(mode, events), r)
  {
    hide Clean, Inv, Kept, Next, Possible;
    if events == [] {
      NobodyKept(r);
    } else {
      var shorter, e := events[..|events| - 1], events[|events| - 1];
      DisciplineKeeps(mode, shorter, r);
      RunKeepsInvariant(mode, shorter);
      EventKeeps(mode, State(mode, shorter), r, e);
    }
  }

  lemma NobodyKept(r: nat)
    ensures Kept(System([], map[]), r)
  {
  }

  lemma EventKeeps(mode: ReadConcern, s: System, r: nat, e: Event)
    requires Inv(mode, s) && Clean(s, r) && Kept(s, r) && Possible(mode, s, e)
    ensures Kept(Next(mode, s, e), r)
  {
    hide Inv, Clean, Sound, RefTaken, RefusalRecorded, AfterEarlyCheck;
    if e.Act? && e.call == r {
      var c := s.calls[r];
      if c.req.TransferRequest? && !ToSelf(c.req) {
        if c.at == Early && e.choice.Go? {
          EarlyCheckKeeps(mode, s, r);
        } else if c.at != Early {
          OwnStepKeeps(mode, s, r, e.choice);
        }
      } else {
        SameRequest(mode, r, s.log, c, e.choice);
      }
    } else {
      OtherStepKeeps(mode, s, r, e);
    }
  }

  lemma SameRequest(mode: ReadConcern, author: nat, log: seq<Commit>, c: Call, choice: Choice)
    requires Enabled(mode, author, log, c, choice)
    ensures Stepped(mode, author, log, c, choice).req == c.req
  {
    hide Where, Newest, HitsReference, HitsSequence, Latest, Find;
  }

  /** Meaning of the recorded failure: in a run where nobody else uses the transfer's key while the transfer
      is in flight, the key is never used for another phone, and no receiver leg takes it, the answer
      ErrHalfTransferFail means that a FAILED row of the sender under that key is committed and left the
      sender's balance unchanged. */
  lemma HalfTransferMeansRecorded(mode: ReadConcern, events: seq<Event>, r: nat)
    requires Run(mode, events) && AlwaysClean(mode, events, r) && r in State(mode, events).calls
    requires State(mode, events).calls[r].at == Done(Failure(ErrHalfTransferFail))
    ensures State(mode, events).calls[r].req.TransferRequest?
    ensures RefusalRecorded(State(mode, events).log, State(mode, events).calls[r].req)
  {
    hide Sound, Where, Owned, Built, Run, State, AlwaysClean, RefusalRecorded;
    DisciplineKeeps(mode, events, r);
    RunCallOk(mode, events, r);
  }
}
