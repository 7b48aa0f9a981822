/** What a call does when no other call disturbs it: a decision table over the committed state, which every
    undisturbed execution follows, and which shows what a caller can tell beforehand. */
module Undisturbed {
  import opened Model
  import opened Ledger
  import opened Protocol
  import opened Safety
  import opened Signals

  /** What the outside supplies to one call: the answer of the wallet service, if it is asked, and the ids the
      driver generates for its rows. */
  datatype World = World(asked: WalletAnswer, rowId: nat, creditId: nat)

  /** What a call answers and commits. */
  datatype Outcome = Outcome(answer: Response, added: seq<Commit>)

  function Refuse(error: Error): Outcome {
    Outcome(Failure(error), [])
  }

  /** The phone's wallet id is known from its history, or the wallet service says it. */
  predicate WalletKnown(log: seq<Commit>, p: Phone, asked: WalletAnswer) {
    Latest(log, p).Some? || asked.Wallet?
  }

  function WalletFor(log: seq<Commit>, p: Phone, asked: WalletAnswer): string {
    var latest := Latest(log, p);
    if latest.Some? then latest.value.wallet else if asked.Wallet? then asked.id else ""
  }

  function LookupError(asked: WalletAnswer): Error {
    if asked.NoWallet? then ErrWalletNotFound else ErrOther
  }

  function OwnerRow(prev: Option<Row>, req: Request, wallet: string, id: nat): Row
    requires !req.TransferRequest?
  {
    if req.DepositRequest? then DepositRow(prev, req, wallet, id) else WithdrawalRow(prev, req, wallet, id)
  }

  /* ---------- The decision table ---------- */

  /** The balances let the request through. */
  predicate Payable(log: seq<Commit>, req: Request) {
    match req
    case DepositRequest(phone, amount, _) => HasRoom(log, phone, amount)
    case WithdrawalRequest(phone, amount, _) => amount <= Balance(log, phone)
    case TransferRequest(sender, receiver, amount, _) =>
      amount <= Balance(log, sender) && HasRoom(log, receiver, amount)
  }

  predicate HasRoom(log: seq<Commit>, p: Phone, amount: int) {
    Balance(log, p) + amount <= WALLET_MAX
  }

  /** A deposit or withdrawal from the top of its retry loop. */
  function OwnerVerdict(log: seq<Commit>, id: nat, req: Request, wallet: string, w: World): Outcome
    requires !req.TransferRequest?
  {
    if !Payable(log, req) then
      Refuse(if req.DepositRequest? then ErrExceedsMaxBalance else ErrInsufficientBalance)
    else if RefTaken(log, req.key) then
      Outcome(ReplayOf(req, Find(log, WithRef(req.key))), [])
    else
      var row := OwnerRow(Latest(log, req.phone), req, wallet, w.rowId);
      Outcome(ReplayOf(req, Some(row)), [One(id, row)])
  }

  /** A transfer from the top of the loop that records the failure. */
  function RecordVerdict(log: seq<Commit>, id: nat, req: Request, w: World): Outcome
    requires req.TransferRequest? && Latest(log, req.sender).Some?
  {
    Outcome(Failure(ErrHalfTransferFail),
            if RefTaken(log, req.key) then []
            else [One(id, FailedRow(Latest(log, req.sender).value, req, w.rowId))])
  }

  /** A transfer from the top of its first retry loop. */
  function SendVerdict(log: seq<Commit>, id: nat, req: Request, wallet: string, receiverWallet: string, w: World)
    : Outcome
    requires req.TransferRequest? && Latest(log, req.sender).Some?
  {
    if Balance(log, req.sender) < req.amount then
      Refuse(ErrInsufficientBalance)
    else if !HasRoom(log, req.receiver, req.amount) then
      RecordVerdict(log, id, req, w)
    else if KeyTaken(log, req) then
      Outcome(ReplayOf(req, Find(log, WithRef(req.key))), [])
    else
      var debit := DebitRow(Latest(log, req.sender), req, wallet, w.rowId);
      var credit := CreditRow(Latest(log, req.receiver), req, receiverWallet, w.creditId);
      Outcome(ReplayOf(req, Some(debit)), [Two(id, debit, credit)])
  }

  function LoopVerdict(log: seq<Commit>, id: nat, req: Request, wallet: string, receiverWallet: string, w: World)
    : Outcome
    requires req.TransferRequest? ==> Latest(log, req.sender).Some?
  {
    if req.TransferRequest? then SendVerdict(log, id, req, wallet, receiverWallet, w)
    else OwnerVerdict(log, id, req, wallet, w)
  }

  /** A call from its arrival. */
  function Verdict(log: seq<Commit>, id: nat, req: Request, w: World): Outcome {
    var processed := Find(log, RefOn(req.key, req.Owner()));
    if ToSelf(req) then
      Refuse(ErrInvalidTransactionStatus)
    else if processed.Some? then
      Outcome(ReplayOf(req, processed), [])
    else if req.TransferRequest? && Latest(log, req.sender).None? then
      Refuse(ErrInsufficientBalance)
    else if !WalletKnown(log, if req.TransferRequest? then req.receiver else req.phone, w.asked) then
      Refuse(LookupError(w.asked))
    else if req.WithdrawalRequest? && Latest(log, req.phone).None? then
      Refuse(ErrInsufficientBalance)
    else
      LoopVerdict(log, id, req, WalletFor(log, req.Owner(), w.asked),
                  if req.TransferRequest? then WalletFor(log, req.receiver, w.asked) else "", w)
  }

  /* ---------- The table in plain terms ---------- */

  function NextSeq(log: seq<Commit>, p: Phone): nat {
    |Where(log, OnPhone(p))| + 1
  }

  /** A deposit under a free key, to a phone whose wallet is known: up to a balance of 9000000000000000 it is
      posted, beyond it is refused. */
  lemma DepositDecision(log: seq<Commit>, id: nat, req: Request, w: World)
    requires Sound(log) && req.DepositRequest? && req.Admitted()
    requires WalletKnown(log, req.phone, w.asked) && !RefTaken(log, req.key)
    ensures var v, held := Verdict(log, id, req, w), Balance(log, req.phone);
            var wallet := WalletFor(log, req.phone, w.asked);
            if held + req.amount <= 9000000000000000 then
              && v.answer == WalletResponse(w.rowId, wallet, Posted, held + req.amount)
              && v.added == [One(id, Row(w.rowId, req.key, req.phone, "", "", Deposit, Posted, req.amount, wallet,
                                         held, held + req.amount, NextSeq(log, req.phone), ""))]
            else v == Refuse(ErrExceedsMaxBalance)
  {
    hide Sound, Where, Newest, Latest, Find, RefTaken, Wrap;
    FreeOnPhone(log, req.key, req.phone);
    ChainInvariant(log, req.phone);
    NoOverflow(Balance(log, req.phone), req.amount);
  }

  /** A withdrawal under a free key, of a phone whose wallet is known. */
  lemma WithdrawalDecision(log: seq<Commit>, id: nat, req: Request, w: World)
    requires Sound(log) && req.WithdrawalRequest? && req.Admitted()
    requires WalletKnown(log, req.phone, w.asked) && !RefTaken(log, req.key)
    ensures var v, held := Verdict(log, id, req, w), Balance(log, req.phone);
            var wallet := WalletFor(log, req.phone, w.asked);
            if req.amount <= held then
              && v.answer == WalletResponse(w.rowId, wallet, Posted, held - req.amount)
              && v.added == [One(id, Row(w.rowId, req.key, req.phone, "", "", Withdrawal, Posted, req.amount, wallet,
                                         held, held - req.amount, NextSeq(log, req.phone), ""))]
            else v == Refuse(ErrInsufficientBalance)
  {
    hide Sound, Where, Newest, Latest, Find, RefTaken, Wrap;
    FreeOnPhone(log, req.key, req.phone);
    ChainInvariant(log, req.phone);
    NoOverflow(Balance(log, req.phone), req.amount);
  }

  /** A transfer between different phones under free keys, to a receiver whose wallet is known: refused outright
      if the sender cannot pay, recorded as FAILED if the receiver would exceed 9000000000000000, else posted. */
  lemma TransferDecision(log: seq<Commit>, id: nat, req: Request, w: World)
    requires Sound(log) && req.TransferRequest? && req.Admitted() && req.sender != req.receiver
    requires WalletKnown(log, req.receiver, w.asked)
    requires !RefTaken(log, req.key) && !RefTaken(log, req.key + "_deposit")
    ensures var v, paid, got := Verdict(log, id, req, w), Balance(log, req.sender), Balance(log, req.receiver);
            var wallet := WalletFor(log, req.sender, NoWallet);
            if paid < req.amount then v == Refuse(ErrInsufficientBalance)
            else if got + req.amount > 9000000000000000 then
              && v.answer == Failure(ErrHalfTransferFail)
              && v.added == [One(id, Row(w.rowId, req.key, req.sender, req.sender, req.receiver, Transfer, Failed,
                                         req.amount, wallet, paid, paid, NextSeq(log, req.sender),
                                         "Receiver: Exceeds maximum balance"))]
            else
              && v.answer == TransferResponse(w.rowId, wallet, Posted, paid - req.amount, paid)
              && v.added == [Two(id, Row(w.rowId, req.key, req.sender, req.sender, req.receiver, Transfer, Posted,
                                         req.amount, wallet, paid, paid - req.amount, NextSeq(log, req.sender), ""),
                                 Row(w.creditId, req.key + "_deposit", req.receiver, req.sender, req.receiver, Transfer,
                                     Posted, req.amount, WalletFor(log, req.receiver, w.asked), got, got + req.amount,
                                     NextSeq(log, req.receiver), ""))]
  {
    hide Sound, Where, Newest, Latest, Find, RefTaken, Wrap;
    ReasonText();
    FreeOnPhone(log, req.key, req.sender);
    ChainInvariant(log, req.sender);
    ChainInvariant(log, req.receiver);
    NoOverflow(Balance(log, req.sender), req.amount);
    NoOverflow(Balance(log, req.receiver), req.amount);
  }

  lemma FreeOnPhone(log: seq<Commit>, key: Key, p: Phone)
    requires Sound(log) && !RefTaken(log, key)
    ensures Find(log, RefOn(key, p)).None?
  {
    hide Sound, Where;
    FindOnPhone(log, key, p);
    FoundIsTaken(log, key);
  }

  /** A key that a row of the same phone holds: the row is answered, or for a FAILED one to a transfer that
      failure; nothing is committed. */
  lemma ReplayDecision(log: seq<Commit>, id: nat, req: Request, w: World, r: Row)
    requires !ToSelf(req) && Find(log, RefOn(req.key, req.Owner())) == Some(r)
    ensures var v := Verdict(log, id, req, w);
            && v.added == []
            && if req.TransferRequest? && r.status == Failed then v.answer == Failure(ErrHalfTransferFail)
               else CarriesRow(v.answer, r) && v.answer.TransferResponse? == req.TransferRequest?
  {
    hide Find;
  }

  /* ---------- Undisturbed steps ---------- */

  /** A step in which no driver error, spurious conflict or rerun of the callback intervenes, and the outside
      supplies w. */
  predicate Calm(choice: Choice, w: World) {
    match choice
    case Say(answer) => answer == w.asked
    case Write(id, creditId) => id == w.rowId && creditId == w.creditId
    case WriteConflict => false
    case Rerun => false
    case Break => false
    case _ => true
  }

  function Rank(at: Point): nat {
    match at
    case Early => 0
    case WalletLookup => 1
    case Peek => 1
    case ReceiverLookup => 2
    case Begin => 3
    case ReadOwner => 4
    case ReadReceiver => 5
    case Insert => 6
    case Replay => 7
    case FailBegin => 6
    case FailRead => 7
    case FailInsert => 8
    case Done(_) => 9
  }

  predicate RowsDrafted(log: seq<Commit>, c: Call) {
    if c.req.TransferRequest? then
      && c.row == DebitRow(Latest(log, c.req.sender), c.req, c.wallet, 0)
      && c.credit == CreditRow(Latest(log, c.req.receiver), c.req, c.receiverWallet, 0)
    else c.row == OwnerRow(Latest(log, c.req.phone), c.req, c.wallet, 0)
  }

  /** The call, alone from here on, is on its way to the outcome v. */
  predicate Pending(log: seq<Commit>, id: nat, w: World, v: Outcome, c: Call) {
    && c.i < MAX_RETRIES
    && (c.at != Early ==> !ToSelf(c.req) && (c.req.TransferRequest? ==> Latest(log, c.req.sender).Some?))
    && match c.at
       case Early => v == Verdict(log, id, c.req, w)
       case WalletLookup =>
         && !c.req.TransferRequest?
         && v == if !w.asked.Wallet? then Refuse(LookupError(w.asked))
                 else if c.req.WithdrawalRequest? then Refuse(ErrInsufficientBalance)
                 else LoopVerdict(log, id, c.req, w.asked.id, "", w)
       case Peek =>
         && c.req.TransferRequest?
         && v == if !WalletKnown(log, c.req.receiver, w.asked) then Refuse(LookupError(w.asked))
                 else LoopVerdict(log, id, c.req, c.wallet, WalletFor(log, c.req.receiver, w.asked), w)
       case ReceiverLookup =>
         && c.req.TransferRequest?
         && v == if !w.asked.Wallet? then Refuse(LookupError(w.asked))
                 else LoopVerdict(log, id, c.req, c.wallet, w.asked.id, w)
       case Begin => v == LoopVerdict(log, id, c.req, c.wallet, c.receiverWallet, w)
       case ReadOwner => v == LoopVerdict(log, id, c.req, c.wallet, c.receiverWallet, w)
       case ReadReceiver =>
         && c.req.TransferRequest? && c.req.amount <= Balance(log, c.req.sender)
         && c.row == DebitRow(Latest(log, c.req.sender), c.req, c.wallet, 0)
         && v == LoopVerdict(log, id, c.req, c.wallet, c.receiverWallet, w)
       case Insert =>
         && Payable(log, c.req) && RowsDrafted(log, c)
         && v == LoopVerdict(log, id, c.req, c.wallet, c.receiverWallet, w)
       case Replay => v == Outcome(ReplayOf(c.req, Find(log, WithRef(c.req.key))), [])
       case FailBegin => c.req.TransferRequest? && v == RecordVerdict(log, id, c.req, w)
       case FailRead => c.req.TransferRequest? && v == RecordVerdict(log, id, c.req, w)
       case FailInsert =>
         && c.req.TransferRequest? && c.row == FailedRow(Latest(log, c.req.sender).value, c.req, 0)
         && v == RecordVerdict(log, id, c.req, w)
       case Done(_) => false
  }

  /** With the collection as it was in `log` but for its own commit, the call is pending or settled. */
  predicate OnTrack(log: seq<Commit>, id: nat, w: World, v: Outcome, now: seq<Commit>, c: Call) {
    && c.req.Admitted()
    && if c.at.Done? then c.at.answer == v.answer && now == log + v.added
       else now == log && c.start <= |log| && c.began <= |log| && Pending(log, id, w, v, c)
  }

  /** One step further on the way. */
  predicate Nearer(log: seq<Commit>, id: nat, w: World, v: Outcome, now: seq<Commit>, c: Call, d: Call) {
    OnTrack(log, id, w, v, now, d) && d.req == c.req && Rank(d.at) > Rank(c.at)
  }

  /** The next sequence number of a phone is free. */
  lemma NextIsFree(log: seq<Commit>, p: Phone)
    requires Sound(log)
    ensures !SeqTaken(log, p, SeqAfter(Latest(log, p)))
  {
    ChainInvariant(log, p);
    SeqTakenIff(log, p, SeqAfter(Latest(log, p)));
  }

  lemma HeldNow(log: seq<Commit>, p: Phone, amount: int)
    requires Sound(log) && 1 <= amount <= INT64_MAX
    ensures OverCapacity(BalanceOf(Latest(log, p)), amount) <==> !HasRoom(log, p, amount)
    ensures Insufficient(BalanceOf(Latest(log, p)), amount) <==> Balance(log, p) < amount
  {
    hide Where, Newest, Sound, Latest, OverCapacity, Insufficient;
    assert log[..|log|] == log;
    GuardsExact(log, |log|, p, amount);
  }

  lemma EarlyStep(log: seq<Commit>, id: nat, w: World, v: Outcome, c: Call)
    requires OnTrack(log, id, w, v, log, c) && c.at == Early
    ensures Nearer(log, id, w, v, log, c, AfterEarlyCheck(log, c))
  {
    hide Where, Newest, Find, Latest, RefTaken;
  }

  lemma LookupStep(log: seq<Commit>, id: nat, w: World, v: Outcome, c: Call)
    requires OnTrack(log, id, w, v, log, c)
    ensures c.at == WalletLookup ==> Nearer(log, id, w, v, log, c, AfterWalletLookup(c, w.asked))
    ensures c.at == ReceiverLookup ==> Nearer(log, id, w, v, log, c, AfterReceiverLookup(c, w.asked))
  {
    hide Where, Newest, Find, Latest, RefTaken, Payable, SendVerdict, Verdict, RecordVerdict;
  }

  lemma LoopStep(log: seq<Commit>, id: nat, w: World, v: Outcome, c: Call)
    requires OnTrack(log, id, w, v, log, c) && (c.at == Begin || c.at == FailBegin)
    ensures Nearer(log, id, w, v, log, c, AfterBegin(log, c))
  {
    hide Where, Newest, Find, Latest, RefTaken, Payable, LoopVerdict, Verdict, RecordVerdict;
  }

  lemma PeekStep(log: seq<Commit>, id: nat, w: World, v: Outcome, c: Call)
    requires OnTrack(log, id, w, v, log, c) && c.at == Peek
    ensures Nearer(log, id, w, v, log, c, AfterPeek(log, c, |log|))
  {
    hide Where, Newest, Find, Latest, RefTaken, Payable, SendVerdict, OwnerVerdict, Verdict, RecordVerdict;
    assert log[..|log|] == log;
  }

  lemma OwnerReadStep(log: seq<Commit>, id: nat, w: World, v: Outcome, c: Call)
    requires Sound(log) && OnTrack(log, id, w, v, log, c) && c.at == ReadOwner
    ensures Nearer(log, id, w, v, log, c, AfterReadOwner(log, c, |log|))
  {
    hide Where, Newest, Find, Latest, RefTaken, Sound, OverCapacity, Insufficient, Verdict, RecordVerdict,
      DepositRow, WithdrawalRow, DebitRow, CreditRow;
    assert log[..|log|] == log;
    HeldNow(log, c.req.Owner(), c.req.amount);
  }

  lemma ReceiverReadStep(log: seq<Commit>, id: nat, w: World, v: Outcome, c: Call)
    requires Sound(log) && OnTrack(log, id, w, v, log, c) && c.at == ReadReceiver
    ensures Nearer(log, id, w, v, log, c, AfterReadReceiver(log, c, |log|))
  {
    hide Where, Newest, Find, Latest, RefTaken, Sound, OverCapacity, Insufficient, Verdict, RecordVerdict, DebitRow,
      CreditRow;
    assert log[..|log|] == log;
    HeldNow(log, c.req.receiver, c.req.amount);
  }

  lemma FailReadStep(log: seq<Commit>, id: nat, w: World, v: Outcome, c: Call)
    requires OnTrack(log, id, w, v, log, c) && c.at == FailRead
    ensures Nearer(log, id, w, v, log, c, AfterFailRead(log, c, |log|))
  {
    hide Where, Newest, Find, Latest, RefTaken, Verdict, RecordVerdict, LoopVerdict, FailedRow;
    assert log[..|log|] == log;
  }

  /** The answers of all reads are current. */
  lemma SeeStep(log: seq<Commit>, id: nat, w: World, v: Outcome, c: Call)
    requires Sound(log) && OnTrack(log, id, w, v, log, c)
    requires c.at == Peek || c.at == ReadOwner || c.at == ReadReceiver || c.at == FailRead
    requires c.at == ReadOwner || c.req.TransferRequest?
    ensures Nearer(log, id, w, v, log, c, AfterSee(log, c, |log|))
  {
    hide OnTrack, Nearer, Sound, AfterPeek, AfterReadOwner, AfterReadReceiver, AfterFailRead;
    if c.at == Peek {
      PeekStep(log, id, w, v, c);
    } else if c.at == ReadOwner {
      OwnerReadStep(log, id, w, v, c);
    } else if c.at == ReadReceiver {
      ReceiverReadStep(log, id, w, v, c);
    } else {
      FailReadStep(log, id, w, v, c);
    }
  }

  /** No sequence number of the drafted batch is taken. */
  lemma NoConflict(log: seq<Commit>, id: nat, w: World, v: Outcome, c: Call)
    requires Sound(log) && OnTrack(log, id, w, v, log, c) && (c.at == Insert || c.at == FailInsert)
    ensures forall rowId, creditId :: !HitsSequence(log, Draft(id, c, rowId, creditId))
  {
    hide Where, Newest, Find, Latest, RefTaken, Sound, SeqTaken, Payable, LoopVerdict, Verdict, RecordVerdict, Wrap;
    NextIsFree(log, c.req.Owner());
    if c.req.TransferRequest? {
      NextIsFree(log, c.req.receiver);
    }
  }

  /** The keys of the drafted batch are those of the request. */
  lemma DraftedKeys(log: seq<Commit>, id: nat, w: World, v: Outcome, c: Call, rowId: nat, creditId: nat)
    requires OnTrack(log, id, w, v, log, c) && (c.at == Insert || c.at == FailInsert)
    ensures HitsReference(log, Draft(id, c, rowId, creditId))
        <==> if c.at == Insert then KeyTaken(log, c.req) else RefTaken(log, c.req.key)
  {
    hide Where, Newest, Find, Latest, RefTaken, Payable, LoopVerdict, Verdict, RecordVerdict, Wrap;
    SuffixDiffers(c.req.key);
  }

  lemma DuplicateStep(log: seq<Commit>, id: nat, w: World, v: Outcome, c: Call)
    requires OnTrack(log, id, w, v, log, c) && (c.at == Insert || c.at == FailInsert)
    requires HitsReference(log, Draft(id, c, 0, 0))
    ensures Nearer(log, id, w, v, log, c, AfterDuplicateReference(c))
  {
    hide Where, Newest, Find, Latest, RefTaken, Verdict, HitsReference, DebitRow, CreditRow, DepositRow,
      WithdrawalRow;
    DraftedKeys(log, id, w, v, c, 0, 0);
  }

  lemma RowsWritten(log: seq<Commit>, id: nat, w: World, v: Outcome, c: Call)
    requires OnTrack(log, id, w, v, log, c) && c.at == Insert && !KeyTaken(log, c.req)
    ensures var now := log + [Draft(id, c, w.rowId, w.creditId)];
            Nearer(log, id, w, v, now, c, AfterWrite(|log|, c, w.rowId))
  {
    hide Where, Newest, Find, Latest, RefTaken, Verdict, RecordVerdict, Wrap;
  }

  lemma RefusalWritten(log: seq<Commit>, id: nat, w: World, v: Outcome, c: Call)
    requires OnTrack(log, id, w, v, log, c) && c.at == FailInsert && !RefTaken(log, c.req.key)
    ensures var now := log + [Draft(id, c, w.rowId, w.creditId)];
            Nearer(log, id, w, v, now, c, AfterWrite(|log|, c, w.rowId))
  {
    hide Where, Newest, Find, Latest, RefTaken, Verdict, LoopVerdict;
  }

  lemma WriteStep(log: seq<Commit>, id: nat, w: World, v: Outcome, c: Call)
    requires OnTrack(log, id, w, v, log, c) && (c.at == Insert || c.at == FailInsert)
    requires !HitsReference(log, Draft(id, c, w.rowId, w.creditId))
    ensures var now := log + [Draft(id, c, w.rowId, w.creditId)];
            Nearer(log, id, w, v, now, c, AfterWrite(|log|, c, w.rowId))
  {
    hide OnTrack, Nearer, KeyTaken, RefTaken, HitsReference, Draft, AfterWrite;
    DraftedKeys(log, id, w, v, c, w.rowId, w.creditId);
    if c.at == Insert {
      RowsWritten(log, id, w, v, c);
    } else {
      RefusalWritten(log, id, w, v, c);
    }
  }

  /** Every undisturbed step keeps the call on its way and brings it nearer to the end. */
  lemma CalmStep(mode: ReadConcern, log: seq<Commit>, id: nat, w: World, v: Outcome, c: Call, choice: Choice)
    requires Sound(log) && OnTrack(log, id, w, v, log, c) && !c.at.Done?
    requires Enabled(mode, id, log, c, choice) && Calm(choice, w) && (choice.See? ==> choice.k == |log|)
    ensures Nearer(log, id, w, v, Grown(id, log, c, choice), c, Stepped(mode, id, log, c, choice))
  {
    hide OnTrack, Nearer, Sound, AfterSee, AfterEarlyCheck, AfterBegin, AfterWrite, AfterDuplicateReference,
      AfterWalletLookup, AfterReceiverLookup, HitsReference, HitsSequence, Draft, Visible, ReplayOf;
    match choice
    case See(_) => SeeStep(log, id, w, v, c);
    case Say(_) => LookupStep(log, id, w, v, c);
    case RefusedReference => DuplicateStep(log, id, w, v, c);
    case RefusedSequence => NoConflict(log, id, w, v, c);
    case Write(_, _) => WriteStep(log, id, w, v, c);
    case Go =>
      if c.at == Early {
        EarlyStep(log, id, w, v, c);
      } else if c.at == Replay {
        ReplayStep(log, id, w, v, c);
      } else {
        LoopStep(log, id, w, v, c);
      }
  }

  lemma ReplayStep(log: seq<Commit>, id: nat, w: World, v: Outcome, c: Call)
    requires OnTrack(log, id, w, v, log, c) && c.at == Replay
    ensures Nearer(log, id, w, v, log, c, Answered(c, ReplayOf(c.req, Find(log, WithRef(c.req.key)))))
  {
    hide Find, ReplayOf, Latest;
  }

  /** The step an undisturbed call takes next. */
  function NextStep(log: seq<Commit>, id: nat, w: World, c: Call): Choice {
    match c.at
    case WalletLookup => Say(w.asked)
    case ReceiverLookup => Say(w.asked)
    case Peek => See(|log|)
    case ReadOwner => See(|log|)
    case ReadReceiver => See(|log|)
    case FailRead => See(|log|)
    case Insert =>
      if HitsReference(log, Draft(id, c, 0, 0)) then RefusedReference else Write(w.rowId, w.creditId)
    case FailInsert =>
      if HitsReference(log, Draft(id, c, 0, 0)) then RefusedReference else Write(w.rowId, w.creditId)
    case _ => Go
  }

  /** An undisturbed call is never stuck. */
  lemma NeverStuck(mode: ReadConcern, log: seq<Commit>, id: nat, w: World, v: Outcome, c: Call)
    requires Sound(log) && OnTrack(log, id, w, v, log, c) && !c.at.Done?
    ensures var choice := NextStep(log, id, w, c);
            Enabled(mode, id, log, c, choice) && Calm(choice, w) && (choice.See? ==> choice.k == |log|)
  {
    hide Sound, HitsReference, HitsSequence, Draft, RowsDrafted, Payable, LoopVerdict, Verdict, RecordVerdict, Find,
      Latest;
    if c.at == Insert || c.at == FailInsert {
      NoConflict(log, id, w, v, c);
      DraftedKeys(log, id, w, v, c, 0, 0);
      DraftedKeys(log, id, w, v, c, w.rowId, w.creditId);
    }
  }

  /* ---------- Undisturbed stretches of a run ---------- */

  lemma {:induction false} RunPrefix(mode: ReadConcern, events: seq<Event>, n: nat)
    requires Run(mode, events) && n <= |events|
    ensures Run(mode, events[..n])
  {
    if n == |events| {
      assert events[..n] == events;
    } else {
      RunPrefix(mode, events[..|events| - 1], n);
      assert events[..|events| - 1][..n] == events[..n];
    }
  }

  /** After its first n events the run consists of undisturbed steps of one call. Without any read concern
      its reads must happen to be current; with one they are. */
  predicate Alone(mode: ReadConcern, events: seq<Event>, n: nat, id: nat, w: World)
    requires Run(mode, events) && n <= |events|
  {
    |events| == n ||
    (var shorter, e := events[..|events| - 1], events[|events| - 1];
     && e.Act? && e.call == id && Calm(e.choice, w)
     && (mode == AnyCommitted && e.choice.See? ==> e.choice.k == |State(mode, shorter).log|)
     && Alone(mode, shorter, n, id, w))
  }

  /** While nobody else commits, the read concern leaves the call's reads no choice but the current state. */
  predicate ReadsCurrent(mode: ReadConcern, log: seq<Commit>, c: Call) {
    match mode
    case AnyCommitted => true
    case SinceEarlyCheck => c.at == Early || c.at.Done? || c.start == |log|
    case SinceAttempt => c.at == Early || c.at.Done? || c.at == Begin || c.at == FailBegin || c.began == |log|
  }

  lemma ReadsStayCurrent(mode: ReadConcern, log: seq<Commit>, id: nat, w: World, c: Call, choice: Choice)
    requires ReadsCurrent(mode, log, c) && Enabled(mode, id, log, c, choice) && Calm(choice, w)
    ensures mode != AnyCommitted && choice.See? ==> choice.k == |log|
    ensures ReadsCurrent(mode, log, Stepped(mode, id, log, c, choice))
  {
    hide HitsReference, HitsSequence, Draft, Find, Latest, ReplayOf, OverCapacity, Insufficient, DepositRow,
      WithdrawalRow, DebitRow, CreditRow, FailedRow;
  }

  /** Only this call has moved. */
  predicate OnlyMoved(s: System, t: System, id: nat) {
    id in t.calls && t.calls.Keys == s.calls.Keys && forall o :: o in s.calls && o != id ==> t.calls[o] == s.calls[o]
  }

  /** Where an undisturbed stretch that began in s has led. */
  predicate Followed(mode: ReadConcern, s: System, t: System, id: nat, w: World, v: Outcome, steps: nat) {
    && id in s.calls && OnlyMoved(s, t, id)
    && t.calls[id].req == s.calls[id].req
    && OnTrack(s.log, id, w, v, t.log, t.calls[id])
    && (!t.calls[id].at.Done? ==> ReadsCurrent(mode, s.log, t.calls[id]))
    && steps + Rank(s.calls[id].at) <= Rank(t.calls[id].at)
  }

  lemma FollowedFurther(mode: ReadConcern, s: System, t: System, id: nat, w: World, v: Outcome, steps: nat,
                        choice: Choice)
    requires Followed(mode, s, t, id, w, v, steps) && Sound(s.log)
    requires Possible(mode, t, Act(id, choice)) && Calm(choice, w)
    requires mode == AnyCommitted && choice.See? ==> choice.k == |t.log|
    ensures Followed(mode, s, Next(mode, t, Act(id, choice)), id, w, v, steps + 1)
  {
    hide OnTrack, Sound, Enabled, Stepped, ReadsCurrent, Calm;
    var c := t.calls[id];
    assert !c.at.Done? by { DoneIsFinal(mode, id, t.log, c, choice); }
    UndoneIsQuiet(s.log, id, w, v, t.log, c);
    ReadsStayCurrent(mode, s.log, id, w, c, choice);
    CalmStep(mode, s.log, id, w, v, c, choice);
  }

  lemma DoneIsFinal(mode: ReadConcern, id: nat, log: seq<Commit>, c: Call, choice: Choice)
    requires Enabled(mode, id, log, c, choice)
    ensures !c.at.Done?
  {
  }

  lemma UndoneIsQuiet(log: seq<Commit>, id: nat, w: World, v: Outcome, now: seq<Commit>, c: Call)
    requires OnTrack(log, id, w, v, now, c) && !c.at.Done?
    ensures now == log
  {
  }

  lemma {:induction false} StretchFollows(mode: ReadConcern, events: seq<Event>, n: nat, id: nat, w: World, v: Outcome)
    requires Run(mode, events) && n <= |events| && Alone(mode, events, n, id, w) && Run(mode, events[..n])
    requires Followed(mode, State(mode, events[..n]), State(mode, events[..n]), id, w, v, 0)
    ensures Followed(mode, State(mode, events[..n]), State(mode, events), id, w, v, |events| - n)
  {
    hide Followed, Possible, Next, Sound;
    if n == |events| {
      assert events[..n] == events;
    } else {
      var shorter, e := events[..|events| - 1], events[|events| - 1];
      assert shorter[..n] == events[..n];
      StretchFollows(mode, shorter, n, id, w, v);
      RunIsSound(mode, events[..n]);
      FollowedFurther(mode, State(mode, events[..n]), State(mode, shorter), id, w, v, |shorter| - n, e.choice);
    }
  }

  /** What the stretch has led to: the outcome v, or no commit and a step that leads on. */
  ghost predicate Settles(mode: ReadConcern, log: seq<Commit>, t: System, id: nat, w: World, v: Outcome) {
    && id in t.calls
    && var c := t.calls[id];
    && (c.at.Done? ==> c.at.answer == v.answer && t.log == log + v.added)
    && (!c.at.Done? ==> t.log == log && exists choice :: Calm(choice, w) && Enabled(mode, id, log, c, choice))
  }

  lemma FollowedSettles(mode: ReadConcern, s: System, t: System, id: nat, w: World, v: Outcome, steps: nat)
    requires Followed(mode, s, t, id, w, v, steps) && Sound(s.log)
    ensures Settles(mode, s.log, t, id, w, v) && t.calls[id].req == s.calls[id].req
    ensures steps + Rank(s.calls[id].at) <= 9
  {
    hide Sound, Enabled, Pending;
    if !t.calls[id].at.Done? {
      NeverStuck(mode, s.log, id, w, v, t.calls[id]);
    }
  }

  lemma ArrivalFollows(mode: ReadConcern, s: System, id: nat, req: Request, w: World)
    requires Possible(mode, s, Arrive(id, req))
    ensures var t := Next(mode, s, Arrive(id, req));
            t.log == s.log && t.calls[id] == NewCall(req) && Followed(mode, t, t, id, w, Verdict(s.log, id, req, w), 0)
  {
    hide Verdict;
  }

  /** A call that nobody disturbs from its arrival on, in whatever reachable state it arrives, answers and
      commits exactly what the decision table says; it has committed nothing before it answers, is never stuck, and
      answers within nine steps. */
  lemma CallAlone(mode: ReadConcern, events: seq<Event>, n: nat, id: nat, req: Request, w: World)
    requires Run(mode, events) && n < |events| && events[n] == Arrive(id, req)
    requires Alone(mode, events, n + 1, id, w)
    ensures Run(mode, events[..n])
    ensures var log := State(mode, events[..n]).log;
            Settles(mode, log, State(mode, events), id, w, Verdict(log, id, req, w))
    ensures |events| - (n + 1) <= 9
  {
    hide Followed, Possible, Next, Sound, Settles, Verdict, Alone;
    RunPrefix(mode, events, n);
    RunPrefix(mode, events, n + 1);
    assert events[..n + 1][..n] == events[..n];
    var s := State(mode, events[..n]);
    ArrivalFollows(mode, s, id, req, w);
    StretchFollows(mode, events, n + 1, id, w, Verdict(s.log, id, req, w));
    RunIsSound(mode, events[..n + 1]);
    FollowedSettles(mode, State(mode, events[..n + 1]), State(mode, events), id, w, Verdict(s.log, id, req, w),
                    |events| - (n + 1));
  }

  /** The outcome of a call from the top of either retry loop. */
  function VerdictFrom(log: seq<Commit>, id: nat, c: Call, w: World): Outcome
    requires c.req.TransferRequest? ==> Latest(log, c.req.sender).Some?
    requires c.at == FailBegin ==> c.req.TransferRequest?
  {
    if c.at == FailBegin then RecordVerdict(log, id, c.req, w)
    else LoopVerdict(log, id, c.req, c.wallet, c.receiverWallet, w)
  }

  /** At the top of a retry loop the call can still see the history its EarlyCheck saw. */
  lemma LoopHasHistory(mode: ReadConcern, log: seq<Commit>, id: nat, c: Call)
    requires CallOk(mode, log, id, c) && (c.at == Begin || c.at == FailBegin)
    ensures c.req.Admitted() && !ToSelf(c.req) && c.start <= |log| && c.began <= |log|
    ensures c.at == FailBegin ==> c.req.TransferRequest?
    ensures c.req.TransferRequest? ==> Latest(log, c.req.sender).Some?
  {
    hide Where, Owned;
    WherePrefix(log, c.start, OnPhone(c.req.Owner()));
  }

  lemma LoopFollows(mode: ReadConcern, s: System, id: nat, w: World)
    requires mode != SinceEarlyCheck && id in s.calls && CallOk(mode, s.log, id, s.calls[id])
    requires (s.calls[id].at == Begin || s.calls[id].at == FailBegin) && s.calls[id].i < MAX_RETRIES
    requires s.calls[id].req.TransferRequest? ==> Latest(s.log, s.calls[id].req.sender).Some?
    requires s.calls[id].at == FailBegin ==> s.calls[id].req.TransferRequest?
    ensures Followed(mode, s, s, id, w, VerdictFrom(s.log, id, s.calls[id], w), 0)
  {
    hide RecordVerdict, LoopVerdict, CallOk, Latest;
    LoopHasHistory(mode, s.log, id, s.calls[id]);
  }

  /** An attempt that nobody disturbs is the last one: from the top of either retry loop, with attempts left, in
      whatever reachable state and after however many conflicts, the call answers within six steps and never
      meets another conflict. */
  lemma AttemptAlone(mode: ReadConcern, events: seq<Event>, n: nat, id: nat, w: World)
    requires mode != SinceEarlyCheck && Run(mode, events) && n <= |events| && Alone(mode, events, n, id, w)
    requires Run(mode, events[..n]) && id in State(mode, events[..n]).calls
    requires var c := State(mode, events[..n]).calls[id]; (c.at == Begin || c.at == FailBegin) && c.i < MAX_RETRIES
    ensures var s := State(mode, events[..n]);
            && (s.calls[id].req.TransferRequest? ==> Latest(s.log, s.calls[id].req.sender).Some?)
            && (s.calls[id].at == FailBegin ==> s.calls[id].req.TransferRequest?)
            && Settles(mode, s.log, State(mode, events), id, w, VerdictFrom(s.log, id, s.calls[id], w))
    ensures |events| - n <= 6
  {
    hide Followed, Possible, Next, Sound, Settles, VerdictFrom, Alone, CallOk, Latest;
    var s := State(mode, events[..n]);
    RunCallOk(mode, events[..n], id);
    LoopHasHistory(mode, s.log, id, s.calls[id]);
    LoopFollows(mode, s, id, w);
    var v := VerdictFrom(s.log, id, s.calls[id], w);
    StretchFollows(mode, events, n, id, w, v);
    FollowedSettles(mode, s, State(mode, events), id, w, v, |events| - n);
  }

  /* ---------- Whole executions ---------- */

  /** Between the two, none of the call's operations failed and none of its inserts met a write conflict. */
  predicate Untroubled(before: multiset<Signal>, after: multiset<Signal>, id: nat) {
    after[OperationFailed(id)] <= before[OperationFailed(id)] && after[WriteClash(id)] <= before[WriteClash(id)]
  }

  /** The world u agrees with what has been supplied so far. */
  predicate Agrees(u: World, w: World, said: bool, wrote: bool) {
    && (said ==> u.asked == w.asked)
    && (wrote ==> u.rowId == w.rowId && u.creditId == w.creditId)
  }

  lemma LookupBehind(mode: ReadConcern, id: nat, log: seq<Commit>, c: Call, choice: Choice)
    requires Enabled(mode, id, log, c, choice)
    ensures !c.at.Done?
    ensures var d := Stepped(mode, id, log, c, choice);
            && d.req == c.req
            && (Rank(c.at) > 2 || choice.Say? ==> Rank(d.at) > 2) && (choice.Say? ==> Rank(c.at) <= 2)
            && (choice.Write? ==> d.at.Done?)
  {
    hide Latest, Find, HitsReference, HitsSequence, Draft, OverCapacity, Insufficient, DepositRow, WithdrawalRow,
      DebitRow, CreditRow, FailedRow, Visible, ReplayOf;
  }

  lemma CalmChoice(id: nat, req: Request, choice: Choice, u: World)
    requires SignalOf(id, req, choice)[OperationFailed(id)] == 0 && SignalOf(id, req, choice)[WriteClash(id)] == 0
    requires choice.Say? ==> u.asked == choice.answer
    requires choice.Write? ==> u.rowId == choice.id && u.creditId == choice.creditId
    ensures Calm(choice, u)
  {
  }

  lemma RecordedGrows(mode: ReadConcern, events: seq<Event>, s: Signal)
    requires Run(mode, events) && events != []
    ensures Recorded(mode, events[..|events| - 1])[s] <= Recorded(mode, events)[s]
  {
    hide State, Possible;
  }

  lemma {:induction false} RecordedGrowsSince(mode: ReadConcern, events: seq<Event>, n: nat, s: Signal)
    requires Run(mode, events) && n <= |events| && Run(mode, events[..n])
    ensures Recorded(mode, events[..n])[s] <= Recorded(mode, events)[s]
  {
    if n == |events| {
      assert events[..n] == events;
    } else {
      hide State, Possible, Recorded;
      var shorter := events[..|events| - 1];
      assert shorter[..n] == events[..n];
      RecordedGrowsSince(mode, shorter, n, s);
      RecordedGrows(mode, events, s);
    }
  }

  lemma NothingCharged(mode: ReadConcern, events: seq<Event>, n: nat, id: nat)
    requires Run(mode, events) && n < |events| && Run(mode, events[..n])
    requires Untroubled(Recorded(mode, events[..n]), Recorded(mode, events), id)
    ensures var shorter, e := events[..|events| - 1], events[|events| - 1];
            && Possible(mode, State(mode, shorter), e)
            && shorter[..n] == events[..n]
            && Untroubled(Recorded(mode, events[..n]), Recorded(mode, shorter), id)
            && Charged(mode, State(mode, shorter), e)[OperationFailed(id)] == 0
            && Charged(mode, State(mode, shorter), e)[WriteClash(id)] == 0
  {
    hide State, Possible, Charged;
    var shorter := events[..|events| - 1];
    assert shorter[..n] == events[..n];
    RecordedGrowsSince(mode, shorter, n, OperationFailed(id));
    RecordedGrowsSince(mode, shorter, n, WriteClash(id));
  }

  /** An untroubled stretch of one call's steps is an undisturbed one, in the world it itself shows: the answer of
      the wallet service, if it was asked, and the ids generated, if rows were written. */
  lemma {:induction false} WorldOfStretch(mode: ReadConcern, events: seq<Event>, n: nat, id: nat)
    returns (w: World, said: bool, wrote: bool)
    requires mode != AnyCommitted && Run(mode, events) && n <= |events| && Run(mode, events[..n])
    requires id in State(mode, events[..n]).calls
    requires forall i :: n <= i < |events| ==> events[i].call == id
    requires Untroubled(Recorded(mode, events[..n]), Recorded(mode, events), id)
    ensures id in State(mode, events).calls
    ensures State(mode, events).calls[id].req == State(mode, events[..n]).calls[id].req
    ensures forall u :: Agrees(u, w, said, wrote) ==> Alone(mode, events, n, id, u)
    ensures said ==> WalletSaid(id, LookupPhone(State(mode, events).calls[id].req), w.asked) in Recorded(mode, events)
    ensures said ==> Rank(State(mode, events).calls[id].at) > 2
    ensures wrote ==> State(mode, events).calls[id].at.Done?
  {
    hide Possible, Next, Rank, Calm, Recorded, Charged, Untroubled;
    if n == |events| {
      assert events[..n] == events;
      w, said, wrote := World(NoWallet, 0, 0), false, false;
    } else {
      var shorter, e := events[..|events| - 1], events[|events| - 1];
      assert shorter[..n] == events[..n];
      NothingCharged(mode, events, n, id);
      w, said, wrote := WorldOfStretch(mode, shorter, n, id);
      w, said, wrote := WorldExtended(mode, shorter, e, n, id, w, said, wrote);
      assert shorter + [e] == events;
    }
  }

  lemma WorldExtended(mode: ReadConcern, events: seq<Event>, e: Event, n: nat, id: nat,
                      w: World, said: bool, wrote: bool)
    returns (v: World, said': bool, wrote': bool)
    requires mode != AnyCommitted && Run(mode, events) && n <= |events|
    requires Possible(mode, State(mode, events), e) && e.call == id && id in State(mode, events).calls
    requires forall u :: Agrees(u, w, said, wrote) ==> Alone(mode, events, n, id, u)
    requires said ==> WalletSaid(id, LookupPhone(State(mode, events).calls[id].req), w.asked) in Recorded(mode, events)
    requires said ==> Rank(State(mode, events).calls[id].at) > 2
    requires wrote ==> State(mode, events).calls[id].at.Done?
    requires Charged(mode, State(mode, events), e)[OperationFailed(id)] == 0
    requires Charged(mode, State(mode, events), e)[WriteClash(id)] == 0
    ensures Run(mode, events + [e]) && id in State(mode, events + [e]).calls
    ensures State(mode, events + [e]).calls[id].req == State(mode, events).calls[id].req
    ensures forall u :: Agrees(u, v, said', wrote') ==> Alone(mode, events + [e], n, id, u)
    ensures said' ==>
              WalletSaid(id, LookupPhone(State(mode, events).calls[id].req), v.asked) in Recorded(mode, events + [e])
    ensures said' ==> Rank(State(mode, events + [e]).calls[id].at) > 2
    ensures wrote' ==> State(mode, events + [e]).calls[id].at.Done?
  {
    hide Run, State, Recorded, Enabled, Stepped, Draft, Rank, Calm;
    var s := State(mode, events);
    var c, choice := s.calls[id], e.choice;
    RunAppend(mode, events, e);
    RecordedAppend(mode, events, e);
    LookupBehind(mode, id, s.log, c, choice);
    v, said', wrote' := w, said || choice.Say?, wrote || choice.Write?;
    if choice.Say? {
      v := w.(asked := choice.answer);
    } else if choice.Write? {
      v := w.(rowId := choice.id, creditId := choice.creditId);
    }
    assert (events + [e])[..|events|] == events;
    forall u | Agrees(u, v, said', wrote') ensures Alone(mode, events + [e], n, id, u) {
      CalmChoice(id, c.req, choice, u);
      assert Agrees(u, w, said, wrote);
    }
  }

  /** In this world, this is what the call answers and what it leaves. */
  predicate Decided(log: seq<Commit>, id: nat, req: Request, w: World, answer: Response, after: seq<Commit>) {
    var v := Verdict(log, id, req, w);
    answer == v.answer && after == log + v.added
  }

  /** The decision table holds with the answer the wallet service gave, or whatever it would have said. */
  ghost predicate DecidedByWorld(log: seq<Commit>, id: nat, req: Request, answer: Response, after: seq<Commit>,
                                 told: multiset<Signal>)
  {
    exists w ::
      && Decided(log, id, req, w, answer, after)
      && (WalletSaid(id, LookupPhone(req), w.asked) in told
          || forall asked :: Decided(log, id, req, w.(asked := asked), answer, after))
  }

  /** An execution that starts with the call's arrival, in which nobody else takes a step and nothing fails,
      follows the decision table. */
  lemma UntroubledIsDecided(mode: ReadConcern, events: seq<Event>, n: nat, id: nat, req: Request)
    requires mode != AnyCommitted && Run(mode, events) && n < |events| && events[n] == Arrive(id, req)
    requires Run(mode, events[..n])
    requires forall i :: n <= i < |events| ==> events[i].call == id
    requires Untroubled(Recorded(mode, events[..n]), Recorded(mode, events), id)
    requires id in State(mode, events).calls && State(mode, events).calls[id].at.Done?
    ensures DecidedByWorld(State(mode, events[..n]).log, id, req, State(mode, events).calls[id].at.answer,
                           State(mode, events).log, Recorded(mode, events))
  {
    hide Alone, Recorded, Verdict, Enabled, Stepped, Decided, Run, State;
    RunPrefix(mode, events, n + 1);
    assert events[..n + 1][..n] == events[..n] && events[..n + 1] == events[..n] + [Arrive(id, req)];
    ArrivedNow(mode, events[..n + 1], id, req);
    RecordedGrows(mode, events[..n + 1], OperationFailed(id));
    RecordedGrows(mode, events[..n + 1], WriteClash(id));
    var log, t := State(mode, events[..n]).log, State(mode, events);
    var w, said, wrote := WorldOfStretch(mode, events, n + 1, id);
    forall u | Agrees(u, w, said, wrote) ensures Decided(log, id, req, u, t.calls[id].at.answer, t.log) {
      SettledAsDecided(mode, events, n, id, req, u);
    }
    assert Agrees(w, w, said, wrote);
    if !said {
      forall asked ensures Decided(log, id, req, w.(asked := asked), t.calls[id].at.answer, t.log) {
        assert Agrees(w.(asked := asked), w, said, wrote);
      }
    }
  }

  lemma ArrivedNow(mode: ReadConcern, events: seq<Event>, id: nat, req: Request)
    requires Run(mode, events) && events != [] && events[|events| - 1] == Arrive(id, req)
    ensures id in State(mode, events).calls && State(mode, events).calls[id].req == req
  {
    hide Enabled;
  }

  lemma SettledAsDecided(mode: ReadConcern, events: seq<Event>, n: nat, id: nat, req: Request, w: World)
    requires Run(mode, events) && n < |events| && events[n] == Arrive(id, req) && Run(mode, events[..n])
    requires Alone(mode, events, n + 1, id, w)
    requires id in State(mode, events).calls && State(mode, events).calls[id].at.Done?
    ensures Decided(State(mode, events[..n]).log, id, req, w, State(mode, events).calls[id].at.answer,
                    State(mode, events).log)
  {
    hide Alone, Run, State, Verdict, Enabled;
    CallAlone(mode, events, n, id, req, w);
  }
}
