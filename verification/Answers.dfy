/** What each answer says of the ledger, over every run. */
module Answers {
  import opened Model
  import opened Ledger
  import opened Protocol
  import opened Safety

  predicate Succeeded(c: Call) {
    c.at.Done? && !c.at.answer.Failure?
  }

  /** Exactly once per key: at most one row is ever committed under a key; every success answered to that key,
      fresh, replayed by EarlyCheck or replayed after a duplicate reference, whatever the kinds of the request and
      of the row, carries that row's id, wallet, status and balances; a transfer answers both balances of the row,
      a deposit or withdrawal the one after it. */
  lemma ExactlyOncePerKey(mode: ReadConcern, events: seq<Event>, key: Key, a: nat)
    requires Run(mode, events) && a in State(mode, events).calls
    requires State(mode, events).calls[a].req.key == key && Succeeded(State(mode, events).calls[a])
    ensures var rows, c := Where(State(mode, events).log, WithRef(key)), State(mode, events).calls[a];
            && |rows| == 1
            && c.at.answer.id == rows[0].id && c.at.answer.wallet == rows[0].wallet
            && c.at.answer.status == rows[0].status
            && (c.at.answer.WalletResponse? <==> !c.req.TransferRequest?)
            && (c.at.answer.WalletResponse? ==> c.at.answer.balance == rows[0].after)
            && (c.at.answer.TransferResponse? ==>
                  && c.at.answer.status == Posted
                  && c.at.answer.balanceAfter == rows[0].after && c.at.answer.balanceBefore == rows[0].before)
  {
    hide Sound, Where, Built, Owned, Run, State;
    RunCallOk(mode, events, a);
    UniqueReference(State(mode, events).log, key);
  }

  /** So any two successes to a key agree. */
  lemma SuccessesAgree(mode: ReadConcern, events: seq<Event>, a: nat, b: nat)
    requires Run(mode, events)
    requires a in State(mode, events).calls && b in State(mode, events).calls
    requires State(mode, events).calls[a].req.key == State(mode, events).calls[b].req.key
    requires Succeeded(State(mode, events).calls[a]) && Succeeded(State(mode, events).calls[b])
    ensures var x, y := State(mode, events).calls[a].at.answer, State(mode, events).calls[b].at.answer;
            && x.id == y.id && x.wallet == y.wallet && x.status == y.status
            && (x.WalletResponse? && y.WalletResponse? ==> x.balance == y.balance)
            && (x.WalletResponse? && y.TransferResponse? ==> x.balance == y.balanceAfter)
            && (x.TransferResponse? && y.TransferResponse? ==>
                  x.balanceAfter == y.balanceAfter && x.balanceBefore == y.balanceBefore)
  {
    hide Run, State, Where;
    var key := State(mode, events).calls[a].req.key;
    ExactlyOncePerKey(mode, events, key, a);
    ExactlyOncePerKey(mode, events, key, b);
  }

  /** Once committed, a key's row never changes: answers given at any two moments of a run are about the
      same row. */
  lemma {:induction false} KeyIsForever(mode: ReadConcern, events: seq<Event>, n: nat, key: Key)
    requires Run(mode, events) && n <= |events|
    ensures Run(mode, events[..n])
    ensures State(mode, events[..n]).log <= State(mode, events).log
    ensures var found := Find(State(mode, events[..n]).log, WithRef(key));
            found.Some? ==> Find(State(mode, events).log, WithRef(key)) == found
  {
    hide Where, Find, Enabled, Stepped, Draft;
    if n == |events| {
      assert events[..n] == events;
    } else {
      var shorter := events[..|events| - 1];
      assert shorter[..n] == events[..n];
      KeyIsForever(mode, shorter, n, key);
      var now, later := State(mode, shorter).log, State(mode, events).log;
      assert later[..|now|] == now;
      if Find(now, WithRef(key)).Some? {
        FindStable(later, |now|, WithRef(key));
      }
    }
  }

  /** Outcome matches ledger change. A call that answered a fresh success committed exactly its own row, or
      for a transfer its two rows, and nothing else; a replayed success, and every error other than
      ErrHalfTransferFail, committed nothing; ErrHalfTransferFail committed nothing or the refusal row alone;
      a transfer never answers ErrExceedsMaxBalance; a call that has not answered has committed nothing. */
  lemma OutcomeMatchesLedger(mode: ReadConcern, events: seq<Event>, id: nat)
    requires Run(mode, events) && id in State(mode, events).calls
    ensures var log, c := State(mode, events).log, State(mode, events).calls[id];
            && (c.mine.None? ==> forall i :: 0 <= i < |log| ==> log[i].author != id)
            && (c.mine.Some? ==>
                  && c.at.Done? && c.mine.value < |log| && Effect(c, log[c.mine.value])
                  && forall i :: 0 <= i < |log| ==> (log[i].author == id <==> i == c.mine.value))
            && (!c.at.Done? ==> c.mine.None?)
            && (c.at.Done? && c.at.answer.Failure? ==>
                  && (c.at.answer.error != ErrHalfTransferFail ==> c.mine.None?)
                  && (c.at.answer.error == ErrExceedsMaxBalance ==> !c.req.TransferRequest?))
  {
    hide Sound, Where, Run, State, Balance;
    RunCallOk(mode, events, id);
  }

  /** Rejections are justified: with reads no older than EarlyCheck, an insufficient-balance answer, a
      capacity answer to a deposit, and the capacity reason of a FAILED row the call recorded, were each true
      of some committed ledger state between the call's EarlyCheck and its answer; and a deposit or withdrawal
      whose wallet was not found had no rows at its EarlyCheck. */
  lemma RejectionIsJustified(mode: ReadConcern, events: seq<Event>, id: nat)
    requires mode != AnyCommitted && Run(mode, events) && id in State(mode, events).calls
    requires State(mode, events).calls[id].at.Done? && State(mode, events).calls[id].at.answer.Failure?
    ensures var log, c := State(mode, events).log, State(mode, events).calls[id];
            var error := c.at.answer.error;
            && (error == ErrInsufficientBalance ==> exists k :: c.start <= k <= |log| && CouldNotPay(log, c, k))
            && (error == ErrExceedsMaxBalance ==>
                  c.req.DepositRequest? && exists k :: c.start <= k <= |log| && CouldNotTake(log, c, c.req.phone, k))
            && (error == ErrHalfTransferFail && c.mine.Some? ==>
                  && c.req.TransferRequest?
                  && exists k :: c.start <= k <= |log| && CouldNotTake(log, c, c.req.receiver, k))
            && (error == ErrWalletNotFound && !c.req.TransferRequest? ==> NoHistory(log, c))
  {
    hide Sound, Where, Run, State, Owned, CouldNotPay, CouldNotTake;
    RunCallOk(mode, events, id);
    BoundsKnown(State(mode, events).log, State(mode, events).calls[id]);
  }

  lemma BoundsKnown(log: seq<Commit>, c: Call)
    requires Built(log, c)
    ensures c.start <= c.began && c.seen <= |log| && c.seenReceiver <= |log|
  {
  }

  /** Once EarlyCheck has seen history, no later read of the call is empty: the branches of the withdrawal
      and transfer callbacks for a phone without rows are dead, and ErrFirstTransaction is never answered. */
  lemma HistoryStaysVisible(mode: ReadConcern, events: seq<Event>, id: nat)
    requires mode != AnyCommitted && Run(mode, events) && id in State(mode, events).calls
    ensures var log, c := State(mode, events).log, State(mode, events).calls[id];
            && c.at != Done(Failure(ErrFirstTransaction))
            && (!c.req.DepositRequest? && (c.at == ReadOwner || c.at == FailRead) ==>
                  forall k: nat :: Visible(mode, log, c, k) ==> Latest(log[..k], c.req.Owner()).Some?)
  {
    hide Sound, Where, Newest, Run, State, Owned, Latest;
    RunCallOk(mode, events, id);
    var log, c := State(mode, events).log, State(mode, events).calls[id];
    BoundsKnown(log, c);
    if !c.req.DepositRequest? && (c.at == ReadOwner || c.at == FailRead) {
      forall k: nat | Visible(mode, log, c, k) ensures Latest(log[..k], c.req.Owner()).Some? {
        HistoryStillSeen(mode, log, c, k);
      }
    }
  }

  /** The lookup after a duplicate reference finds a row, except for a transfer whose own key is free: then
      it was the key of its receiver leg that was taken. */
  lemma LookupAfterDuplicate(mode: ReadConcern, events: seq<Event>, id: nat)
    requires Run(mode, events) && id in State(mode, events).calls
    requires State(mode, events).calls[id].at == Replay
    ensures var log, c := State(mode, events).log, State(mode, events).calls[id];
            && (!c.req.TransferRequest? ==> Find(log, WithRef(c.req.key)).Some?)
            && (Find(log, WithRef(c.req.key)).None? ==>
                  c.req.TransferRequest? && Find(log, WithRef(c.req.key + DEPOSIT_SUFFIX)).Some?)
  {
    hide Sound, Where, Run, State, Owned;
    RunCallOk(mode, events, id);
  }

  /** Stale reads are harmless: whatever past committed states the reads of an attempt answered from, and
      even if the two reads of a transfer answered from different ones, when the attempt can commit, each row
      it read is still the newest row of its phone, and the batch continues every chain it touches. */
  lemma OnlyCurrentReadsCommit(mode: ReadConcern, events: seq<Event>, id: nat, choice: Choice)
    requires Run(mode, events) && choice.Write? && Possible(mode, State(mode, events), Act(id, choice))
    ensures var log, c := State(mode, events).log, State(mode, events).calls[id];
            && c.seen <= |log| && Latest(log[..c.seen], c.req.Owner()) == Latest(log, c.req.Owner())
            && (c.req.TransferRequest? && c.at == Insert ==>
                  && c.seenReceiver <= |log|
                  && Latest(log[..c.seenReceiver], c.req.receiver) == Latest(log, c.req.receiver))
            && Fits(log, Draft(id, c, choice.id, choice.creditId))
  {
    hide Sound, Where, Newest, Run, State, Owned, Truthful, Latest, Fits, SeqTaken, RefTaken, OverCapacity,
      Insufficient, Wrap;
    RunCallOk(mode, events, id);
    var log, c := State(mode, events).log, State(mode, events).calls[id];
    AcceptedBatchFits(id, log, c, choice.id, choice.creditId);
    StaleReadHarmless(log, c.seen, c.req.Owner());
    if c.req.TransferRequest? && c.at == Insert {
      StaleReadHarmless(log, c.seenReceiver, c.req.receiver);
    }
  }
}
