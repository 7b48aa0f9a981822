/** The invariant every run keeps, and what it says of the ledger, of each call's effect and of each answer. */
module Safety {
  import opened Model
  import opened Ledger
  import opened Protocol

  /* ---------- The rows a callback has built ---------- */

  predicate OwnerRowReady(log: seq<Commit>, c: Call) {
    && c.seen <= |log|
    && var prev := Latest(log[..c.seen], c.req.Owner());
    match c.req
    case DepositRequest(_, amount, _) =>
      !OverCapacity(BalanceOf(prev), amount) && c.row == DepositRow(prev, c.req, c.wallet, 0)
    case WithdrawalRequest(_, amount, _) =>
      !Insufficient(BalanceOf(prev), amount) && c.row == WithdrawalRow(prev, c.req, c.wallet, 0)
    case TransferRequest(_, _, amount, _) =>
      prev.Some? && !Insufficient(BalanceOf(prev), amount) && c.row == DebitRow(prev, c.req, c.wallet, 0)
  }

  predicate CreditRowReady(log: seq<Commit>, c: Call) {
    && c.req.TransferRequest?
    && c.seenReceiver <= |log|
    && var prev := Latest(log[..c.seenReceiver], c.req.receiver);
    !OverCapacity(BalanceOf(prev), c.req.amount) && c.credit == CreditRow(prev, c.req, c.receiverWallet, 0)
  }

  predicate FailedRowReady(log: seq<Commit>, c: Call) {
    && c.req.TransferRequest?
    && c.seen <= |log|
    && var prev := Latest(log[..c.seen], c.req.sender);
    prev.Some? && c.row == FailedRow(prev.value, c.req, 0)
  }

  predicate DraftReady(log: seq<Commit>, c: Call) {
    && c.req.Admitted() && !ToSelf(c.req)
    && (c.at == ReadReceiver ==> OwnerRowReady(log, c))
    && (c.at == Insert ==> OwnerRowReady(log, c) && (c.req.TransferRequest? ==> CreditRowReady(log, c)))
    && (c.at == FailInsert ==> FailedRowReady(log, c))
  }

  lemma DepositRowFits(log: seq<Commit>, c: Call, id: nat)
    requires Sound(log) && c.req.Admitted() && c.req.DepositRequest? && OwnerRowReady(log, c)
    requires !SeqTaken(log, c.row.phone, c.row.seqNo) && !RefTaken(log, c.row.ref)
    ensures RowFits(log, c.row.(id := id))
  {
    hide Where, Newest, Sound, SeqTaken, OverCapacity, Insufficient, Wrap;
    StaleReadHarmless(log, c.seen, c.req.Owner());
    ChainInvariant(log, c.req.Owner());
    NoOverflow(Balance(log, c.req.Owner()), c.req.amount);
  }

  lemma WithdrawalRowFits(log: seq<Commit>, c: Call, id: nat)
    requires Sound(log) && c.req.Admitted() && c.req.WithdrawalRequest? && OwnerRowReady(log, c)
    requires !SeqTaken(log, c.row.phone, c.row.seqNo) && !RefTaken(log, c.row.ref)
    ensures RowFits(log, c.row.(id := id))
  {
    hide Where, Newest, Sound, SeqTaken, OverCapacity, Insufficient, Wrap;
    StaleReadHarmless(log, c.seen, c.req.Owner());
    ChainInvariant(log, c.req.Owner());
    NoOverflow(Balance(log, c.req.Owner()), c.req.amount);
  }

  lemma DebitRowFits(log: seq<Commit>, c: Call, id: nat)
    requires Sound(log) && c.req.Admitted() && c.req.TransferRequest? && OwnerRowReady(log, c)
    requires !SeqTaken(log, c.row.phone, c.row.seqNo) && !RefTaken(log, c.row.ref)
    ensures RowFits(log, c.row.(id := id))
  {
    hide Where, Newest, Sound, SeqTaken, OverCapacity, Insufficient, Wrap;
    StaleReadHarmless(log, c.seen, c.req.Owner());
    ChainInvariant(log, c.req.Owner());
    NoOverflow(Balance(log, c.req.Owner()), c.req.amount);
  }

  /** A row built on a stale read that the indexes let through continues the chain as it stands. */
  lemma OwnerRowFits(log: seq<Commit>, c: Call, id: nat)
    requires Sound(log) && c.req.Admitted() && OwnerRowReady(log, c)
    requires !SeqTaken(log, c.row.phone, c.row.seqNo) && !RefTaken(log, c.row.ref)
    ensures RowFits(log, c.row.(id := id))
  {
    match c.req
    case DepositRequest(_, _, _) => DepositRowFits(log, c, id);
    case WithdrawalRequest(_, _, _) => WithdrawalRowFits(log, c, id);
    case TransferRequest(_, _, _, _) => DebitRowFits(log, c, id);
  }

  lemma CreditRowFits(log: seq<Commit>, c: Call, id: nat)
    requires Sound(log) && c.req.Admitted() && !ToSelf(c.req) && CreditRowReady(log, c)
    requires !SeqTaken(log, c.credit.phone, c.credit.seqNo) && !RefTaken(log, c.credit.ref)
    ensures RowFits(log, c.credit.(id := id))
  {
    hide Where, Newest, Sound, SeqTaken, OverCapacity, Insufficient, Wrap;
    StaleReadHarmless(log, c.seenReceiver, c.req.receiver);
    ChainInvariant(log, c.req.receiver);
    NoOverflow(Balance(log, c.req.receiver), c.req.amount);
  }

  lemma FailedRowFits(log: seq<Commit>, c: Call, id: nat)
    requires Sound(log) && c.req.Admitted() && !ToSelf(c.req) && FailedRowReady(log, c)
    requires !SeqTaken(log, c.row.phone, c.row.seqNo) && !RefTaken(log, c.row.ref)
    ensures RowFits(log, c.row.(id := id)) && c.row.seqNo > 1
  {
    hide Where, Newest, Sound, SeqTaken, OverCapacity, Insufficient, Wrap;
    StaleReadHarmless(log, c.seen, c.req.sender);
    ChainInvariant(log, c.req.sender);
    ChainInvariant(log[..c.seen], c.req.sender) by { SoundPrefix(log, c.seen); }
  }

  lemma AcceptedTransferFits(author: nat, log: seq<Commit>, c: Call, id: nat, creditId: nat)
    requires Sound(log) && DraftReady(log, c) && c.at == Insert && c.req.TransferRequest?
    requires !HitsReference(log, Draft(author, c, id, creditId))
    requires !HitsSequence(log, Draft(author, c, id, creditId))
    ensures Fits(log, Draft(author, c, id, creditId))
  {
    hide Where, Newest, Sound, SeqTaken, RefTaken, RowFits, Wrap, Latest, OverCapacity, Insufficient;
    var batch := Draft(author, c, id, creditId);
    assert batch == Two(author, c.row.(id := id), c.credit.(id := creditId));
    OwnerRowFits(log, c, id);
    CreditRowFits(log, c, creditId);
    assert Rows(batch) == [batch.credit, batch.debit];
  }

  /** Whatever committed states the reads of the attempt answered from, a batch the two indexes accept
      extends every chain it touches from that chain's current end. */
  lemma AcceptedBatchFits(author: nat, log: seq<Commit>, c: Call, id: nat, creditId: nat)
    requires Sound(log) && DraftReady(log, c) && (c.at == Insert || c.at == FailInsert)
    requires !HitsReference(log, Draft(author, c, id, creditId))
    requires !HitsSequence(log, Draft(author, c, id, creditId))
    ensures Fits(log, Draft(author, c, id, creditId))
  {
    if c.at == FailInsert {
      FailedRowFits(log, c, id);
    } else if c.req.TransferRequest? {
      AcceptedTransferFits(author, log, c, id, creditId);
    } else {
      OwnerRowFits(log, c, id);
    }
  }

  /* ---------- Invariant of one call ---------- */

  predicate Recording(c: Call) {
    c.at == FailBegin || c.at == FailRead || c.at == FailInsert
  }

  /** The bookkeeping is consistent and the rows built are those of the states the reads answered from. */
  predicate Built(log: seq<Commit>, c: Call) {
    && c.req.Admitted()
    && c.start <= c.began <= |log| && c.seen <= |log| && c.seenReceiver <= |log|
    && c.i <= c.conflicts + c.spurious
    && (!c.at.Done? ==> c.mine.None?)
    && (c.at == Peek || c.at == ReceiverLookup || c.at == ReadReceiver || Recording(c) ==> c.req.TransferRequest?)
    && (c.at == WalletLookup ==> !c.req.TransferRequest?)
    && (c.at != Early && !c.at.Done? ==> DraftReady(log, c))
  }

  /** The commit did what the request asks, with the ids, wallet and balances of the answer. */
  predicate Effect(c: Call, x: Commit)
    requires c.at.Done?
  {
    match c.at.answer
    case WalletResponse(id, wallet, status, balance) =>
      && x.One? && !c.req.TransferRequest?
      && x.row.kind == (if c.req.DepositRequest? then Deposit else Withdrawal)
      && x.row.ref == c.req.key && x.row.phone == c.req.phone && x.row.amount == c.req.amount
      && x.row.status == status == Posted
      && x.row.sender == x.row.receiver == x.row.failedReason == ""
      && x.row.id == id && x.row.wallet == wallet && x.row.after == balance
    case TransferResponse(id, wallet, status, balanceAfter, balanceBefore) =>
      && x.Two? && c.req.TransferRequest?
      && x.debit.ref == c.req.key && x.debit.amount == c.req.amount
      && x.debit.sender == c.req.sender && x.debit.receiver == c.req.receiver
      && x.debit.status == status == Posted
      && Coupled(x.debit, x.credit) && x.debit.failedReason == x.credit.failedReason == ""
      && x.debit.id == id && x.debit.wallet == wallet
      && x.debit.after == balanceAfter && x.debit.before == balanceBefore
    case Failure(error) =>
      && error == ErrHalfTransferFail && x.One? && c.req.TransferRequest? && IsRefusal(x.row)
      && x.row.failedReason == "Receiver: Exceeds maximum balance"
      && x.row.ref == c.req.key && x.row.amount == c.req.amount
      && x.row.sender == c.req.sender && x.row.receiver == c.req.receiver
  }

  /** The call's only commit is `mine`, and while it has none nothing in the log is its own. */
  predicate Owned(log: seq<Commit>, id: nat, c: Call) {
    match c.mine
    case None => forall i :: 0 <= i < |log| ==> log[i].author != id
    case Some(j) =>
      && c.at.Done? && c.start <= j < |log| && Effect(c, log[j])
      && forall i :: 0 <= i < |log| ==> (log[i].author == id <==> i == j)
  }

  /** In the committed state after k commits the owner could not pay. */
  predicate CouldNotPay(log: seq<Commit>, c: Call, k: nat) {
    k <= |log| && Balance(log[..k], c.req.Owner()) < c.req.amount
  }

  /** In the committed state after k commits the phone could not take the amount. */
  predicate CouldNotTake(log: seq<Commit>, c: Call, p: Phone, k: nat) {
    k <= |log| && Balance(log[..k], p) + c.req.amount > WALLET_MAX
  }

  /** EarlyCheck found no row of the owner. */
  predicate NoHistory(log: seq<Commit>, c: Call) {
    c.start <= |log| && Latest(log[..c.start], c.req.Owner()).None?
  }

  /** What each error says of the committed states the call ran over. */
  predicate ErrorJustified(mode: ReadConcern, log: seq<Commit>, c: Call, error: Error) {
    match error
    case ErrOther => true
    case ErrWalletNotFound => !c.req.TransferRequest? ==> NoHistory(log, c)
    case ErrInsufficientBalance => !c.req.DepositRequest? && Floor(mode, c) <= c.seen && CouldNotPay(log, c, c.seen)
    case ErrExceedsMaxBalance =>
      c.req.DepositRequest? && Floor(mode, c) <= c.seen && CouldNotTake(log, c, c.req.phone, c.seen)
    case ErrFirstTransaction => c.req.TransferRequest? && mode == AnyCommitted
    case ErrInvalidPhoneNumber => false
    case ErrDuplicateSequence => false
    case ErrDuplicateReferenceID => false
    case ErrInvalidTransactionStatus => ToSelf(c.req)
    case ErrTransactionNotFound => c.req.TransferRequest? && RefTaken(log, c.req.key + DEPOSIT_SUFFIX)
    case ErrHighFrequencyTransaction => c.conflicts + c.spurious >= MAX_RETRIES
    case ErrHalfTransferFail => c.req.TransferRequest? && !ToSelf(c.req) && RefTaken(log, c.req.key)
  }

  /** A success carries the row: its id, wallet, status and balances. */
  predicate CarriesRow(answer: Response, r: Row) {
    match answer
    case WalletResponse(id, wallet, status, balance) =>
      id == r.id && wallet == r.wallet && status == r.status && balance == r.after
    case TransferResponse(id, wallet, status, balanceAfter, balanceBefore) =>
      && id == r.id && wallet == r.wallet && status == r.status == Posted
      && balanceAfter == r.after && balanceBefore == r.before
    case Failure(_) => false
  }

  predicate AnswerJustified(mode: ReadConcern, log: seq<Commit>, c: Call, answer: Response) {
    match answer
    case Failure(error) => ErrorJustified(mode, log, c, error)
    case _ =>
      var found := Find(log, WithRef(c.req.key));
      found.Some? && answer == ReplayOf(c.req, found)
  }

  /** EarlyCheck found rows of the owner, wherever the operation needs them. */
  predicate HistorySeen(log: seq<Commit>, c: Call) {
    c.start <= |log| && (!c.req.DepositRequest? ==> Latest(log[..c.start], c.req.Owner()).Some?)
  }

  /** The receiver was over capacity when the first loop was left. */
  predicate ReceiverFull(mode: ReadConcern, log: seq<Commit>, c: Call) {
    && c.req.TransferRequest?
    && (mode == AnyCommitted || c.start <= c.seenReceiver)
    && CouldNotTake(log, c, c.req.receiver, c.seenReceiver)
  }

  predicate KeyTaken(log: seq<Commit>, req: Request) {
    RefTaken(log, req.key) || (req.TransferRequest? && RefTaken(log, req.key + DEPOSIT_SUFFIX))
  }

  predicate Truthful(mode: ReadConcern, log: seq<Commit>, c: Call) {
    match c.at
    case Early => true
    case WalletLookup => c.seen == c.start == c.began && NoHistory(log, c) && CouldNotPay(log, c, c.seen)
    case Replay => HistorySeen(log, c) && KeyTaken(log, c.req)
    case FailBegin => HistorySeen(log, c) && ReceiverFull(mode, log, c)
    case FailRead => HistorySeen(log, c) && ReceiverFull(mode, log, c)
    case FailInsert => HistorySeen(log, c) && ReceiverFull(mode, log, c)
    case Done(answer) =>
      && AnswerJustified(mode, log, c, answer)
      && (answer == Failure(ErrHalfTransferFail) && c.mine.Some? ==> ReceiverFull(mode, log, c))
    case _ => HistorySeen(log, c)
  }

  /* ---------- Commits of other calls ---------- */

  lemma PrefixStable(log: seq<Commit>, x: Commit, k: nat)
    requires k <= |log|
    ensures (log + [x])[..k] == log[..k]
  {
  }

  lemma BuiltStable(log: seq<Commit>, x: Commit, c: Call)
    requires Built(log, c)
    ensures Built(log + [x], c)
  {
    hide Where, Newest, DepositRow, WithdrawalRow, DebitRow, CreditRow, FailedRow;
    PrefixStable(log, x, c.seen);
    PrefixStable(log, x, c.seenReceiver);
  }

  lemma OwnedStable(log: seq<Commit>, x: Commit, id: nat, c: Call)
    requires Owned(log, id, c) && x.author != id
    ensures Owned(log + [x], id, c)
  {
  }

  lemma AnswerStable(mode: ReadConcern, log: seq<Commit>, x: Commit, c: Call, answer: Response)
    requires c.start <= |log| && c.seen <= |log| && AnswerJustified(mode, log, c, answer)
    ensures AnswerJustified(mode, log + [x], c, answer)
  {
    hide Where, Newest, Pick;
    PrefixStable(log, x, c.start);
    PrefixStable(log, x, c.seen);
    WhereAppend(log, x, WithRef(c.req.key));
    WhereAppend(log, x, WithRef(c.req.key + DEPOSIT_SUFFIX));
  }

  lemma TruthfulStable(mode: ReadConcern, log: seq<Commit>, x: Commit, c: Call)
    requires Built(log, c) && Truthful(mode, log, c)
    ensures Truthful(mode, log + [x], c)
  {
    hide Where, Newest, Pick, AnswerJustified;
    PrefixStable(log, x, c.start);
    PrefixStable(log, x, c.seenReceiver);
    WhereAppend(log, x, WithRef(c.req.key));
    WhereAppend(log, x, WithRef(c.req.key + DEPOSIT_SUFFIX));
    if c.at.Done? {
      AnswerStable(mode, log, x, c, c.at.answer);
    }
  }

  /* ---------- The call's own steps ---------- */

  lemma BuiltReadStep(mode: ReadConcern, author: nat, log: seq<Commit>, c: Call, k: nat)
    requires Built(log, c) && Enabled(mode, author, log, c, See(k))
    ensures Built(log, Stepped(mode, author, log, c, See(k)))
  {
    hide Where, Newest, Sound, OverCapacity, Insufficient, DepositRow, WithdrawalRow, DebitRow, CreditRow,
      FailedRow;
  }

  lemma BuiltStep(mode: ReadConcern, author: nat, log: seq<Commit>, c: Call, choice: Choice)
    requires Built(log, c) && Enabled(mode, author, log, c, choice)
    ensures Built(Grown(author, log, c, choice), Stepped(mode, author, log, c, choice))
  {
    hide Where, Newest, OwnerRowReady, CreditRowReady, FailedRowReady, HitsReference, HitsSequence, Latest;
    if choice.See? {
      BuiltReadStep(mode, author, log, c, choice.k);
    } else if choice.Write? {
      BuiltStable(log, Draft(author, c, choice.id, choice.creditId), c);
    }
  }

  /** Any step but a commit leaves the call without a commit of its own. */
  lemma OwnedQuietStep(mode: ReadConcern, author: nat, log: seq<Commit>, c: Call, choice: Choice)
    requires Owned(log, author, c) && Enabled(mode, author, log, c, choice) && !choice.Write?
    ensures Owned(log, author, Stepped(mode, author, log, c, choice))
  {
    hide Where, HitsReference, HitsSequence, Latest, OverCapacity, Insufficient, Wrap, Find, ReplayOf, DepositRow,
      WithdrawalRow, DebitRow, CreditRow, FailedRow, Draft, Effect;
  }

  lemma DraftEffect(author: nat, log: seq<Commit>, c: Call, id: nat, creditId: nat)
    requires DraftReady(log, c) && (c.at == Insert || c.at == FailInsert)
    requires c.at == FailInsert ==> c.req.TransferRequest?
    ensures Effect(AfterWrite(|log|, c, id), Draft(author, c, id, creditId))
  {
    hide Where, Newest, Latest, OverCapacity, Insufficient, Wrap, SeqAfter, BalanceOf;
    ReasonText();
  }

  lemma OwnedWriteStep(mode: ReadConcern, author: nat, log: seq<Commit>, c: Call, choice: Choice)
    requires Built(log, c) && Owned(log, author, c)
    requires Enabled(mode, author, log, c, choice) && choice.Write?
    ensures Owned(Grown(author, log, c, choice), author, Stepped(mode, author, log, c, choice))
  {
    hide Where, HitsReference, HitsSequence, DraftReady, Effect, AfterSee, AfterEarlyCheck, AfterBegin,
      AfterConflict, AfterRerun, AfterWalletLookup, AfterReceiverLookup;
    DraftEffect(author, log, c, choice.id, choice.creditId);
  }

  /** Right after its commit the call finds its own row under its key. */
  lemma OwnRowFound(mode: ReadConcern, author: nat, log: seq<Commit>, c: Call, choice: Choice)
    requires Built(log, c) && Enabled(mode, author, log, c, choice) && choice.Write?
    ensures Find(Grown(author, log, c, choice), WithRef(c.req.key)) == Some(c.row.(id := choice.id))
  {
    var batch := Draft(author, c, choice.id, choice.creditId);
    WhereAppend(log, batch, WithRef(c.req.key));
    PickRows(WithRef(c.req.key), batch);
    SuffixDiffers(c.req.key);
  }

  lemma TruthfulEarlyCheck(mode: ReadConcern, log: seq<Commit>, c: Call)
    requires Sound(log) && Built(log, c) && c.at == Early
    ensures Truthful(mode, log, AfterEarlyCheck(log, c))
  {
    hide Where, Newest, Sound;
    assert log[..|log|] == log;
    FindOnPhone(log, c.req.key, c.req.Owner());
  }

  /** History seen by EarlyCheck is seen by every later read of the call. */
  lemma HistoryStillSeen(mode: ReadConcern, log: seq<Commit>, c: Call, k: nat)
    requires mode != AnyCommitted && Visible(mode, log, c, k) && c.start <= c.began
    requires HistorySeen(log, c) && !c.req.DepositRequest?
    ensures Latest(log[..k], c.req.Owner()).Some?
  {
    assert log[..k][..c.start] == log[..c.start];
    WherePrefix(log[..k], c.start, OnPhone(c.req.Owner()));
  }

  /** In every committed state the two int64 guards decide the exact comparisons. */
  lemma GuardsExact(log: seq<Commit>, k: nat, p: Phone, amount: int)
    requires Sound(log) && k <= |log| && 1 <= amount <= INT64_MAX
    ensures OverCapacity(BalanceOf(Latest(log[..k], p)), amount) <==> Balance(log[..k], p) + amount > WALLET_MAX
    ensures Insufficient(BalanceOf(Latest(log[..k], p)), amount) <==> Balance(log[..k], p) < amount
  {
    SoundPrefix(log, k);
    ChainInvariant(log[..k], p);
    NoOverflow(Balance(log[..k], p), amount);
  }

  lemma TruthfulReadOwner(mode: ReadConcern, log: seq<Commit>, c: Call, k: nat)
    requires Sound(log) && Built(log, c) && Truthful(mode, log, c) && c.at == ReadOwner
    requires Visible(mode, log, c, k)
    ensures Truthful(mode, log, AfterReadOwner(log, c, k))
  {
    hide Where, Newest, Sound, OverCapacity, Insufficient, DepositRow, WithdrawalRow, DebitRow;
    GuardsExact(log, k, c.req.Owner(), c.req.amount);
    if mode != AnyCommitted && !c.req.DepositRequest? {
      HistoryStillSeen(mode, log, c, k);
    }
  }

  lemma TruthfulReadReceiver(mode: ReadConcern, log: seq<Commit>, c: Call, k: nat)
    requires Sound(log) && Built(log, c) && Truthful(mode, log, c) && c.at == ReadReceiver
    requires Visible(mode, log, c, k)
    ensures Truthful(mode, log, AfterReadReceiver(log, c, k))
  {
    hide Where, Newest, Sound, OverCapacity, Insufficient, CreditRow;
    GuardsExact(log, k, c.req.receiver, c.req.amount);
  }

  lemma TruthfulFailRead(mode: ReadConcern, log: seq<Commit>, c: Call, k: nat)
    requires Sound(log) && Built(log, c) && Truthful(mode, log, c) && c.at == FailRead
    requires Visible(mode, log, c, k)
    ensures Truthful(mode, log, AfterFailRead(log, c, k))
  {
    hide Where, Newest, Sound, FailedRow;
    if mode != AnyCommitted {
      HistoryStillSeen(mode, log, c, k);
    }
  }

  lemma TruthfulWrite(mode: ReadConcern, author: nat, log: seq<Commit>, c: Call, choice: Choice)
    requires Built(log, c) && Truthful(mode, log, c)
    requires Enabled(mode, author, log, c, choice) && choice.Write?
    ensures Truthful(mode, Grown(author, log, c, choice), Stepped(mode, author, log, c, choice))
  {
    hide Where, Newest, Sound, Latest, Balance, SeqAfter, BalanceOf, CreditRowReady, OverCapacity, Insufficient,
      Wrap, AfterSee, AfterEarlyCheck, AfterBegin, AfterWalletLookup, AfterReceiverLookup, AfterConflict,
      AfterRerun, HitsReference, HitsSequence, Find;
    var batch := Draft(author, c, choice.id, choice.creditId);
    PrefixStable(log, batch, c.start);
    PrefixStable(log, batch, c.seenReceiver);
    OwnRowFound(mode, author, log, c, choice);
    FoundIsTaken(log + [batch], c.req.key);
  }

  lemma FoundIsTaken(log: seq<Commit>, ref: Key)
    ensures RefTaken(log, ref) <==> Find(log, WithRef(ref)).Some?
  {
    hide Where;
  }

  /** A duplicate reference means the call's key, or for a transfer that of its receiver leg, is in the index. */
  lemma DuplicateMeansTaken(author: nat, log: seq<Commit>, c: Call)
    requires DraftReady(log, c) && (c.at == Insert || c.at == FailInsert)
    requires HitsReference(log, Draft(author, c, 0, 0))
    ensures KeyTaken(log, c.req) && !ToSelf(c.req)
    ensures c.at == FailInsert ==> RefTaken(log, c.req.key)
  {
    hide Where, Newest;
    SuffixDiffers(c.req.key);
  }

  lemma TruthfulRefused(mode: ReadConcern, author: nat, log: seq<Commit>, c: Call, choice: Choice)
    requires Built(log, c) && Truthful(mode, log, c)
    requires Enabled(mode, author, log, c, choice)
    requires || choice.RefusedReference? || choice.RefusedSequence? || choice.WriteConflict?
             || choice.Rerun? || choice.Break?
    ensures Truthful(mode, log, Stepped(mode, author, log, c, choice))
  {
    hide Where, Newest, Sound, Find, Latest, Balance, DraftReady, RefTaken;
    if choice.RefusedReference? {
      DuplicateMeansTaken(author, log, c);
    }
  }

  lemma TruthfulReadStep(mode: ReadConcern, author: nat, log: seq<Commit>, c: Call, k: nat)
    requires Sound(log) && Built(log, c) && Truthful(mode, log, c)
    requires Enabled(mode, author, log, c, See(k))
    ensures Truthful(mode, log, Stepped(mode, author, log, c, See(k)))
  {
    hide Where, Newest, Sound, Latest, AfterReadOwner, AfterReadReceiver, AfterFailRead;
    if c.at == ReadOwner {
      TruthfulReadOwner(mode, log, c, k);
    } else if c.at == ReadReceiver {
      TruthfulReadReceiver(mode, log, c, k);
    } else if c.at == FailRead {
      TruthfulFailRead(mode, log, c, k);
    }
  }

  lemma TruthfulGoStep(mode: ReadConcern, author: nat, log: seq<Commit>, c: Call)
    requires Sound(log) && Built(log, c) && Truthful(mode, log, c)
    requires Enabled(mode, author, log, c, Go)
    ensures Truthful(mode, log, Stepped(mode, author, log, c, Go))
  {
    hide Where, Newest, Sound, Latest, AfterEarlyCheck;
    if c.at == Early {
      TruthfulEarlyCheck(mode, log, c);
    }
  }

  lemma TruthfulSayStep(mode: ReadConcern, author: nat, log: seq<Commit>, c: Call, answer: WalletAnswer)
    requires Built(log, c) && Truthful(mode, log, c)
    requires Enabled(mode, author, log, c, Say(answer))
    ensures Truthful(mode, log, Stepped(mode, author, log, c, Say(answer)))
  {
    hide Where, Newest, Sound;
  }

  lemma TruthfulStep(mode: ReadConcern, author: nat, log: seq<Commit>, c: Call, choice: Choice)
    requires Sound(log) && Built(log, c) && Truthful(mode, log, c)
    requires Enabled(mode, author, log, c, choice)
    ensures Truthful(mode, Grown(author, log, c, choice), Stepped(mode, author, log, c, choice))
  {
    hide Truthful, Built, Enabled, Stepped, Sound;
    match choice
    case Go => TruthfulGoStep(mode, author, log, c);
    case See(k) => TruthfulReadStep(mode, author, log, c, k);
    case Say(answer) => TruthfulSayStep(mode, author, log, c, answer);
    case Write(_, _) => TruthfulWrite(mode, author, log, c, choice);
    case _ => TruthfulRefused(mode, author, log, c, choice);
  }

  /* ---------- Invariant of the system ---------- */

  predicate CallOk(mode: ReadConcern, log: seq<Commit>, id: nat, c: Call) {
    Built(log, c) && Owned(log, id, c) && Truthful(mode, log, c)
  }

  predicate AuthorsKnown(s: System) {
    forall i :: 0 <= i < |s.log| ==> s.log[i].author in s.calls
  }

  predicate Inv(mode: ReadConcern, s: System) {
    && Sound(s.log)
    && AuthorsKnown(s)
    && forall id :: id in s.calls ==> CallOk(mode, s.log, id, s.calls[id])
  }

  lemma CallStep(mode: ReadConcern, author: nat, log: seq<Commit>, c: Call, choice: Choice)
    requires Sound(log) && CallOk(mode, log, author, c) && Enabled(mode, author, log, c, choice)
    ensures Sound(Grown(author, log, c, choice))
    ensures CallOk(mode, Grown(author, log, c, choice), author, Stepped(mode, author, log, c, choice))
  {
    hide Truthful, Owned, Stepped, Sound, HitsReference, HitsSequence, OwnerRowReady, CreditRowReady,
      FailedRowReady, Draft, Fits;
    BuiltStep(mode, author, log, c, choice);
    TruthfulStep(mode, author, log, c, choice);
    if choice.Write? {
      OwnedWriteStep(mode, author, log, c, choice);
      AcceptedBatchFits(author, log, c, choice.id, choice.creditId);
      SoundAppend(log, Draft(author, c, choice.id, choice.creditId));
    } else {
      OwnedQuietStep(mode, author, log, c, choice);
    }
  }

  lemma CallStable(mode: ReadConcern, author: nat, log: seq<Commit>, c: Call, choice: Choice, other: nat, d: Call)
    requires other != author && CallOk(mode, log, other, d)
    ensures CallOk(mode, Grown(author, log, c, choice), other, d)
  {
    hide Truthful, Owned, Built;
    if choice.Write? {
      var batch := Draft(author, c, choice.id, choice.creditId);
      BuiltStable(log, batch, d);
      OwnedStable(log, batch, other, d);
      TruthfulStable(mode, log, batch, d);
    }
  }

  lemma ActKeeps(mode: ReadConcern, s: System, author: nat, choice: Choice)
    requires Inv(mode, s) && Possible(mode, s, Act(author, choice))
    ensures Inv(mode, Next(mode, s, Act(author, choice)))
  {
    hide CallOk, Sound, Enabled, Stepped;
    var c := s.calls[author];
    CallStep(mode, author, s.log, c, choice);
    forall other | other in s.calls && other != author
      ensures CallOk(mode, Grown(author, s.log, c, choice), other, s.calls[other])
    {
      CallStable(mode, author, s.log, c, choice, other, s.calls[other]);
    }
  }

  lemma ArriveKeeps(mode: ReadConcern, s: System, id: nat, req: Request)
    requires Inv(mode, s) && Possible(mode, s, Arrive(id, req))
    ensures Inv(mode, Next(mode, s, Arrive(id, req)))
  {
    hide Sound;
  }

  lemma StepKeeps(mode: ReadConcern, s: System, e: Event)
    requires Inv(mode, s) && Possible(mode, s, e)
    ensures Inv(mode, Next(mode, s, e))
  {
    hide Inv, Possible, Next;
    match e
    case Arrive(id, req) => ArriveKeeps(mode, s, id, req);
    case Act(author, choice) => ActKeeps(mode, s, author, choice);
  }

  /** Every run of any number of calls, under any read concern, keeps the invariant. */
  lemma {:induction false} RunKeepsInvariant(mode: ReadConcern, events: seq<Event>)
    requires Run(mode, events)
    ensures Inv(mode, State(mode, events))
  {
    if events != [] {
      RunKeepsInvariant(mode, events[..|events| - 1]);
      StepKeeps(mode, State(mode, events[..|events| - 1]), events[|events| - 1]);
    }
  }

  lemma RunIsSound(mode: ReadConcern, events: seq<Event>)
    requires Run(mode, events)
    ensures Sound(State(mode, events).log)
  {
    hide Sound;
    RunKeepsInvariant(mode, events);
  }

  lemma RunCallOk(mode: ReadConcern, events: seq<Event>, id: nat)
    requires Run(mode, events) && id in State(mode, events).calls
    ensures CallOk(mode, State(mode, events).log, id, State(mode, events).calls[id])
    ensures Sound(State(mode, events).log)
  {
    hide Sound, CallOk;
    RunKeepsInvariant(mode, events);
  }

  /** Chain invariant of runs: for every phone the sequence numbers are exactly 1..n, the first row starts
      from 0 and each row from where the one before ended, across POSTED and FAILED rows of all operations;
      the latest-row query answers the row committed last; and every balance lies in 0..WALLET_MAX, so that no
      int64 expression of a later attempt can overflow, whatever its amount. */
  lemma ChainsOfRun(mode: ReadConcern, events: seq<Event>, p: Phone, amount: int)
    requires Run(mode, events)
    requires 1 <= amount <= INT64_MAX
    ensures var log := State(mode, events).log;
            var rows := Where(log, OnPhone(p));
            && ChainOk(rows)
            && Latest(log, p) == (if rows == [] then None else Some(rows[|rows| - 1]))
            && (forall r :: r in rows ==> 0 <= r.before <= WALLET_MAX && 0 <= r.after <= WALLET_MAX)
            && IsInt64(WALLET_MAX - amount) && IsInt64(Balance(log, p) - amount)
            && (!OverCapacity(Balance(log, p), amount) ==> IsInt64(Balance(log, p) + amount))
  {
    hide Sound, Where, Newest;
    RunIsSound(mode, events);
    var log := State(mode, events).log;
    ChainInvariant(log, p);
    NoOverflow(Balance(log, p), amount);
    var rows := Where(log, OnPhone(p));
    forall r | r in rows ensures RowOk(r) {
      var i: nat :| i < |rows| && rows[i] == r;
      assert Linked(rows, i);
    }
  }
}
