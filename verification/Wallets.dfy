/** Wallet ids along a phone's chain. */
module Wallets {
  import opened Model
  import opened Ledger
  import opened Protocol
  import opened Safety

  /** The phone a call at a lookup asks the wallet service about. */
  function AskedPhone(c: Call): Phone {
    if c.at == ReceiverLookup && c.req.TransferRequest? then c.req.receiver else c.req.Owner()
  }

  /** Every wallet the service names in the run is the directory's. */
  predicate AnswersAgree(mode: ReadConcern, events: seq<Event>, directory: Phone -> string)
    requires Run(mode, events)
  {
    events == [] ||
    (var shorter, e := events[..|events| - 1], events[|events| - 1];
     && AnswersAgree(mode, shorter, directory)
     && (e.Act? && e.choice.Say? && e.choice.answer.Wallet? ==>
           e.choice.answer.id == directory(AskedPhone(State(mode, shorter).calls[e.call]))))
  }

  predicate LogWallets(log: seq<Commit>, directory: Phone -> string) {
    forall r :: r in Where(log, Everything) ==> r.wallet == directory(r.phone)
  }

  predicate CallWallets(c: Call, directory: Phone -> string) {
    c.at == Early || c.at == WalletLookup || c.at.Done? ||
    (&& c.wallet == directory(c.req.Owner())
     && (c.req.TransferRequest? && c.at != Peek && c.at != ReceiverLookup ==>
           c.receiverWallet == directory(c.req.receiver)))
  }

  lemma LatestWallet(log: seq<Commit>, k: nat, p: Phone, directory: Phone -> string)
    requires LogWallets(log, directory) && k <= |log|
    requires Latest(log[..k], p).Some?
    ensures Latest(log[..k], p).value.wallet == directory(p)
  {
    hide Where;
    var r := Latest(log[..k], p).value;
    WherePrefix(log, k, OnPhone(p));
    assert r in Where(log, OnPhone(p));
    WhereHits(log, OnPhone(p), r);
  }

  lemma DraftWallets(author: nat, log: seq<Commit>, c: Call, id: nat, creditId: nat, directory: Phone -> string)
    requires LogWallets(log, directory) && CallWallets(c, directory)
    requires DraftReady(log, c) && (c.at == Insert || c.at == FailInsert)
    ensures forall r :: r in Rows(Draft(author, c, id, creditId)) ==> r.wallet == directory(r.phone)
  {
    hide Where, Newest, Wrap, LogWallets, OverCapacity, Insufficient, Latest;
    if c.at == FailInsert {
      LatestWallet(log, c.seen, c.req.sender, directory);
    }
  }

  lemma LogWalletsAppend(log: seq<Commit>, x: Commit, directory: Phone -> string)
    requires LogWallets(log, directory)
    requires forall r :: r in Rows(x) ==> r.wallet == directory(r.phone)
    ensures LogWallets(log + [x], directory)
  {
    hide Where;
    WhereAppend(log, x, Everything);
    PickRows(Everything, x);
    if x.One? { assert x.row in Rows(x); } else { assert x.debit in Rows(x) && x.credit in Rows(x); }
  }

  lemma CallWalletsStep(mode: ReadConcern, author: nat, log: seq<Commit>, c: Call, choice: Choice,
                        directory: Phone -> string)
    requires Built(log, c) && LogWallets(log, directory) && CallWallets(c, directory)
    requires Enabled(mode, author, log, c, choice)
    requires choice.Say? && choice.answer.Wallet? ==> choice.answer.id == directory(AskedPhone(c))
    ensures CallWallets(Stepped(mode, author, log, c, choice), directory)
  {
    hide Where, Newest, LogWallets, DraftReady, OverCapacity, Insufficient, HitsReference, HitsSequence, Latest;
    if c.at == Early && choice.Go? && Latest(log, c.req.Owner()).Some? {
      assert log[..|log|] == log;
      LatestWallet(log, |log|, c.req.Owner(), directory);
    }
    if c.at == Peek && choice.See? && Latest(log[..choice.k], c.req.receiver).Some? {
      LatestWallet(log, choice.k, c.req.receiver, directory);
    }
  }

  predicate WalletsOk(s: System, directory: Phone -> string) {
    LogWallets(s.log, directory) && forall id :: id in s.calls ==> CallWallets(s.calls[id], directory)
  }

  lemma WalletsStep(mode: ReadConcern, s: System, e: Event, directory: Phone -> string)
    requires Inv(mode, s) && WalletsOk(s, directory) && Possible(mode, s, e)
    requires e.Act? && e.choice.Say? && e.choice.answer.Wallet? ==>
               e.choice.answer.id == directory(AskedPhone(s.calls[e.call]))
    ensures WalletsOk(Next(mode, s, e), directory)
  {
    hide LogWallets, Sound, Owned, Truthful, Enabled, Stepped, DraftReady, Draft;
    if e.Act? {
      var c := s.calls[e.call];
      assert CallOk(mode, s.log, e.call, c);
      CallWalletsStep(mode, e.call, s.log, c, e.choice, directory);
      if e.choice.Write? {
        WritingAt(mode, e.call, s.log, c, e.choice);
        DraftWallets(e.call, s.log, c, e.choice.id, e.choice.creditId, directory);
        LogWalletsAppend(s.log, Draft(e.call, c, e.choice.id, e.choice.creditId), directory);
      }
    }
  }

  lemma WritingAt(mode: ReadConcern, author: nat, log: seq<Commit>, c: Call, choice: Choice)
    requires Built(log, c) && Enabled(mode, author, log, c, choice) && choice.Write?
    ensures DraftReady(log, c) && (c.at == Insert || c.at == FailInsert)
  {
    hide DraftReady, HitsReference, HitsSequence;
  }

  lemma {:induction false} RunWallets(mode: ReadConcern, events: seq<Event>, directory: Phone -> string)
    requires Run(mode, events) && AnswersAgree(mode, events, directory)
    ensures WalletsOk(State(mode, events), directory)
  {
    hide Inv, Possible, Next;
    if events != [] {
      var shorter := events[..|events| - 1];
      RunWallets(mode, shorter, directory);
      RunKeepsInvariant(mode, shorter);
      WalletsStep(mode, State(mode, shorter), events[|events| - 1], directory);
    }
  }

  /** If the wallet service names the same wallet for a phone whenever it is asked, all rows of a phone carry
      that wallet id: whoever won a race of first deposits, receivers that had no history, FAILED rows. */
  lemma WalletIsConstant(mode: ReadConcern, events: seq<Event>, directory: Phone -> string, p: Phone)
    requires Run(mode, events) && AnswersAgree(mode, events, directory)
    ensures forall r :: r in Where(State(mode, events).log, OnPhone(p)) ==> r.wallet == directory(p)
  {
    hide Where, Run, State, CallWallets, AnswersAgree;
    RunWallets(mode, events, directory);
    var log := State(mode, events).log;
    forall r | r in Where(log, OnPhone(p)) ensures r.wallet == directory(p) {
      WhereHits(log, OnPhone(p), r);
    }
  }
}
