/** The sequential bank the concurrent service refines: balances and used keys, changed by one whole
    operation at a time. */
module SequentialBank {
  import opened Model
  import opened Ledger
  import opened Protocol
  import opened Safety

  datatype Bank = Bank(balances: map<Phone, int>, keys: set<Key>)
  {
    function Held(p: Phone): int {
      if p in balances then balances[p] else 0
    }
  }

  datatype Operation =
    | Credit(phone: Phone, amount: int, key: Key)
    | Debit(phone: Phone, amount: int, key: Key)
    | Move(sender: Phone, receiver: Phone, amount: int, key: Key)
    | Refuse(sender: Phone, key: Key)

  predicate Accepts(b: Bank, op: Operation) {
    match op
    case Credit(phone, amount, key) => amount > 0 && b.Held(phone) + amount <= WALLET_MAX && key !in b.keys
    case Debit(phone, amount, key) => 0 < amount <= b.Held(phone) && key !in b.keys
    case Move(sender, receiver, amount, key) =>
      && sender != receiver && 0 < amount <= b.Held(sender) && b.Held(receiver) + amount <= WALLET_MAX
      && key !in b.keys && key + DEPOSIT_SUFFIX !in b.keys
    case Refuse(sender, key) => sender in b.balances && key !in b.keys
  }

  function Apply(b: Bank, op: Operation): Bank {
    match op
    case Credit(phone, amount, key) => Bank(b.balances[phone := b.Held(phone) + amount], b.keys + {key})
    case Debit(phone, amount, key) => Bank(b.balances[phone := b.Held(phone) - amount], b.keys + {key})
    case Move(sender, receiver, amount, key) =>
      Bank(b.balances[sender := b.Held(sender) - amount][receiver := b.Held(receiver) + amount],
           b.keys + {key, key + DEPOSIT_SUFFIX})
    case Refuse(sender, key) => b.(keys := b.keys + {key})
  }

  /** One operation after the other from the empty bank; None as soon as the bank does not accept one. */
  function Execute(ops: seq<Operation>): Option<Bank> {
    if ops == [] then Some(Bank(map[], {}))
    else
      var b := Execute(ops[..|ops| - 1]);
      var op := ops[|ops| - 1];
      if b.Some? && Accepts(b.value, op) then Some(Apply(b.value, op)) else None
  }

  /* ---------- The bank a collection shows ---------- */

  function OperationOf(c: Commit): Operation {
    match c
    case One(_, row) =>
      (match row.kind
       case Deposit => Credit(row.phone, row.amount, row.ref)
       case Withdrawal => Debit(row.phone, row.amount, row.ref)
       case Transfer => Refuse(row.sender, row.ref))
    case Two(_, debit, _) => Move(debit.sender, debit.receiver, debit.amount, debit.ref)
  }

  function Operations(log: seq<Commit>): (ops: seq<Operation>)
    ensures |ops| == |log|
  {
    if log == [] then [] else Operations(log[..|log| - 1]) + [OperationOf(log[|log| - 1])]
  }

  function Phones(log: seq<Commit>): set<Phone> {
    set r | r in Where(log, Everything) :: r.phone
  }

  function Keys(log: seq<Commit>): set<Key> {
    set r | r in Where(log, Everything) :: r.ref
  }

  /** What queries for the latest rows and for references answer. */
  function Observe(log: seq<Commit>): Bank {
    Bank(map p | p in Phones(log) :: Balance(log, p), Keys(log))
  }

  lemma HeldIsBalance(log: seq<Commit>, p: Phone)
    ensures Observe(log).Held(p) == Balance(log, p)
    ensures p in Phones(log) <==> Where(log, OnPhone(p)) != []
  {
    if p in Phones(log) {
      var r :| r in Where(log, Everything) && r.phone == p;
      WhereHits(log, OnPhone(p), r);
    }
    if Where(log, OnPhone(p)) != [] {
      WhereHits(log, OnPhone(p), Where(log, OnPhone(p))[0]);
    }
  }

  lemma KeyIsTaken(log: seq<Commit>, ref: Key)
    ensures ref in Keys(log) <==> RefTaken(log, ref)
  {
    hide Where;
    if ref in Keys(log) {
      var r :| r in Where(log, Everything) && r.ref == ref;
      WhereHits(log, WithRef(ref), r);
    }
    if RefTaken(log, ref) {
      WhereHits(log, WithRef(ref), Where(log, WithRef(ref))[0]);
    }
  }

  /** A commit sets the balance of each phone it has a row on, */
  lemma BalanceSet(log: seq<Commit>, c: Commit, r: Row)
    requires Sound(log) && Fits(log, c) && r in Rows(c)
    ensures Balance(log, r.phone) == r.before && Balance(log + [c], r.phone) == r.after
  {
    hide Where, Sound, Pick, Newest;
    SoundAppend(log, c);
    ChainInvariant(log + [c], r.phone);
    WhereAppend(log, c, OnPhone(r.phone));
    PickRows(OnPhone(r.phone), c);
  }

  /** and of no other. */
  lemma BalanceKept(log: seq<Commit>, c: Commit, p: Phone)
    requires forall r :: r in Rows(c) ==> r.phone != p
    ensures Latest(log + [c], p) == Latest(log, p)
    ensures Balance(log + [c], p) == Balance(log, p)
  {
    hide Where, Pick, Newest;
    WhereAppend(log, c, OnPhone(p));
    PickRows(OnPhone(p), c);
    assert c.One? ==> c.row in Rows(c);
    assert c.Two? ==> c.debit in Rows(c) && c.credit in Rows(c);
    assert Where(log, OnPhone(p)) + [] == Where(log, OnPhone(p));
  }

  lemma SetsAppend(log: seq<Commit>, c: Commit)
    ensures Phones(log + [c]) == Phones(log) + set r | r in Rows(c) :: r.phone
    ensures Keys(log + [c]) == Keys(log) + set r | r in Rows(c) :: r.ref
  {
    WhereAppend(log, c, Everything);
    PickRows(Everything, c);
    assert Pick(Everything, Rows(c)) == Rows(c);
  }

  lemma SingleStep(log: seq<Commit>, c: Commit)
    requires Sound(log) && Fits(log, c) && c.One?
    ensures Accepts(Observe(log), OperationOf(c))
    ensures Observe(log + [c]) == Apply(Observe(log), OperationOf(c))
  {
    hide Where, Sound, Pick, Newest, Balance;
    var r := c.row;
    assert r in Rows(c);
    BalanceSet(log, c, r);
    HeldIsBalance(log, r.phone);
    KeyIsTaken(log, r.ref);
    SetsAppend(log, c);
    forall p | p != r.phone ensures Balance(log + [c], p) == Balance(log, p) {
      BalanceKept(log, c, p);
    }
    assert Phones(log + [c]) == Phones(log) + {r.phone};
    assert Keys(log + [c]) == Keys(log) + {r.ref};
    assert Observe(log + [c]).balances == Apply(Observe(log), OperationOf(c)).balances;
  }

  lemma CoupledAmounts(log: seq<Commit>, c: Commit)
    requires Fits(log, c) && c.Two?
    ensures 0 < c.debit.amount <= c.debit.before && c.debit.after == c.debit.before - c.debit.amount
    ensures c.credit.before + c.debit.amount == c.credit.after <= WALLET_MAX
    ensures Coupled(c.debit, c.credit) && !RefTaken(log, c.debit.ref) && !RefTaken(log, c.credit.ref)
  {
    hide Where, Balance, RefTaken;
    assert c.debit in Rows(c) && c.credit in Rows(c);
  }

  /** What the two rows do to balances, phones and keys. */
  lemma CoupledEffect(log: seq<Commit>, c: Commit)
    requires Sound(log) && Fits(log, c) && c.Two? && c.debit.phone != c.credit.phone
    ensures Balance(log, c.debit.phone) == c.debit.before && Balance(log, c.credit.phone) == c.credit.before
    ensures Observe(log + [c]).balances
         == Observe(log).balances[c.debit.phone := c.debit.after][c.credit.phone := c.credit.after]
    ensures Keys(log + [c]) == Keys(log) + {c.debit.ref, c.credit.ref}
  {
    hide Where, Sound, Pick, Newest, Balance, Latest, Fits, Keys, Phones;
    var s, r := c.debit, c.credit;
    assert s in Rows(c) && r in Rows(c);
    BalanceSet(log, c, s);
    BalanceSet(log, c, r);
    SetsAppend(log, c);
    forall p | p != s.phone && p != r.phone ensures Balance(log + [c], p) == Balance(log, p) {
      BalanceKept(log, c, p);
    }
    assert Phones(log + [c]) == Phones(log) + {s.phone, r.phone};
    assert Keys(log + [c]) == Keys(log) + {s.ref, r.ref};
  }

  lemma CoupledStep(log: seq<Commit>, c: Commit)
    requires Sound(log) && Fits(log, c) && c.Two?
    ensures Accepts(Observe(log), OperationOf(c))
    ensures Observe(log + [c]) == Apply(Observe(log), OperationOf(c))
  {
    hide Where, Sound, Pick, Newest, Balance, Latest, RefTaken, Fits, Keys, Phones;
    CoupledAmounts(log, c);
    CoupledEffect(log, c);
    HeldIsBalance(log, c.debit.phone);
    HeldIsBalance(log, c.credit.phone);
    KeyIsTaken(log, c.debit.ref);
    KeyIsTaken(log, c.credit.ref);
  }

  lemma StepRefines(log: seq<Commit>, c: Commit)
    requires Sound(log) && Fits(log, c)
    ensures Accepts(Observe(log), OperationOf(c))
    ensures Observe(log + [c]) == Apply(Observe(log), OperationOf(c))
  {
    hide Sound, Fits, Observe, Accepts, Apply;
    if c.One? {
      SingleStep(log, c);
    } else {
      CoupledStep(log, c);
    }
  }

  /** Executed one at a time in commit order, the committed operations are all accepted, and they lead to
      exactly the balances and keys the collection shows. */
  lemma {:induction false} LogRefines(log: seq<Commit>)
    requires Sound(log)
    ensures Execute(Operations(log)) == Some(Observe(log))
  {
    hide Observe, Accepts, Apply, Fits;
    if log == [] {
      assert Observe(log) == Bank(map[], {}) by { ObserveNothing(); }
    } else {
      var shorter, c := log[..|log| - 1], log[|log| - 1];
      LogRefines(shorter);
      StepRefines(shorter, c);
      assert shorter + [c] == log;
      assert Operations(log)[..|log| - 1] == Operations(shorter);
    }
  }

  lemma ObserveNothing()
    ensures Observe([]) == Bank(map[], {})
  {
  }

  /** The operations of a prefix of the log are a prefix of its operations. */
  lemma {:induction false} OperationsPrefix(log: seq<Commit>, k: nat)
    requires k <= |log|
    ensures Operations(log[..k]) == Operations(log)[..k]
    ensures k < |log| ==> Operations(log)[k] == OperationOf(log[k])
  {
    if k == |log| {
      assert log[..k] == log;
    } else {
      var shorter := log[..|log| - 1];
      assert shorter[..k] == log[..k];
      OperationsPrefix(shorter, k);
    }
  }

  /* ---------- Runs ---------- */

  /** The operation a request asks for. */
  function Requested(req: Request): Operation {
    match req
    case DepositRequest(phone, amount, key) => Credit(phone, amount, key)
    case WithdrawalRequest(phone, amount, key) => Debit(phone, amount, key)
    case TransferRequest(sender, receiver, amount, key) => Move(sender, receiver, amount, key)
  }

  /** Refinement: every run of any number of concurrent calls shows, at its end, what the sequential bank
      shows after executing the committed operations one at a time in commit order. */
  lemma RunRefinesBank(mode: ReadConcern, events: seq<Event>)
    requires Run(mode, events)
    ensures var log := State(mode, events).log;
            Execute(Operations(log)) == Some(Observe(log))
  {
    RunKeepsInvariant(mode, events);
    LogRefines(State(mode, events).log);
  }

  /** One step of a run is at most one operation of the bank. */
  lemma StepIsOneOperation(mode: ReadConcern, events: seq<Event>, e: Event)
    requires Run(mode, events) && Possible(mode, State(mode, events), e)
    ensures var before, after := State(mode, events).log, State(mode, events + [e]).log;
            || after == before
            || (|after| == |before| + 1 && after[..|before|] == before
                && Accepts(Observe(before), OperationOf(after[|before|]))
                && Observe(after) == Apply(Observe(before), OperationOf(after[|before|])))
  {
    hide Observe, Accepts, Apply, Sound;
    RunAppend(mode, events, e);
    RunKeepsInvariant(mode, events + [e]);
    var before, after := State(mode, events).log, State(mode, events + [e]).log;
    if after != before {
      SoundPrefix(after, |before|);
      assert after[..|before|] == before;
      assert after == before + [after[|before|]];
      StepRefines(before, after[|before|]);
    }
  }

  /** The operation is what the call's answer claims, with the balances the bank holds around it. */
  predicate Reports(c: Call, op: Operation, before: Bank, after: Bank)
    requires c.at.Done?
  {
    var owner := c.req.Owner();
    match c.at.answer
    case WalletResponse(_, _, _, balance) => op == Requested(c.req) && balance == after.Held(owner)
    case TransferResponse(_, _, _, balanceAfter, balanceBefore) =>
      op == Requested(c.req) && balanceBefore == before.Held(owner) && balanceAfter == after.Held(owner)
    case Failure(_) => c.req.TransferRequest? && op == Refuse(owner, c.req.key)
  }

  lemma OwnCommitReports(log: seq<Commit>, id: nat, c: Call)
    requires Sound(log) && Owned(log, id, c) && c.mine.Some?
    ensures var j := c.mine.value;
            Reports(c, OperationOf(log[j]), Observe(log[..j]), Observe(log[..j + 1]))
  {
    hide Observe, Sound, Where, Balance, RowFits;
    var j := c.mine.value;
    SoundPrefix(log, j);
    assert log[..j] + [log[j]] == log[..j + 1];
    var row := if log[j].One? then log[j].row else log[j].debit;
    assert row in Rows(log[j]);
    BalanceSet(log[..j], log[j], row);
    HeldIsBalance(log[..j], row.phone);
    HeldIsBalance(log[..j + 1], row.phone);
  }

  lemma PrefixRefines(log: seq<Commit>, k: nat)
    requires Sound(log) && k <= |log|
    ensures Execute(Operations(log)[..k]) == Some(Observe(log[..k]))
  {
    hide Observe, Execute, Fits;
    SoundPrefix(log, k);
    LogRefines(log[..k]);
    OperationsPrefix(log, k);
  }

  /** A call with a commit of its own executed exactly the operation of its request, or for a transfer
      answered with an error the refusal of it, somewhere between its EarlyCheck and its answer; and the
      balances it answered are those of the sequential bank right before and right after that operation. */
  lemma FreshAnswerIsTheOperation(mode: ReadConcern, events: seq<Event>, id: nat)
    requires Run(mode, events) && id in State(mode, events).calls
    requires State(mode, events).calls[id].mine.Some?
    ensures var s := State(mode, events);
            var c, ops := s.calls[id], Operations(s.log);
            var j := c.mine.value;
            && c.at.Done? && c.start <= j < |s.log|
            && var before, after := Observe(s.log[..j]), Observe(s.log[..j + 1]);
            && Execute(ops[..j]) == Some(before)
            && Execute(ops[..j + 1]) == Some(after)
            && Reports(c, ops[j], before, after)
  {
    hide Observe, Execute, Sound, Truthful, Built, Effect, Reports;
    RunKeepsInvariant(mode, events);
    var s := State(mode, events);
    assert CallOk(mode, s.log, id, s.calls[id]);
    var j := s.calls[id].mine.value;
    OwnCommitReports(s.log, id, s.calls[id]);
    PrefixRefines(s.log, j);
    PrefixRefines(s.log, j + 1);
    OperationsPrefix(s.log, j);
  }
}
