/** The step system: any number of concurrent deposit, withdrawal and transfer calls over one collection.
    A call's state is its program point and local variables in service.go; every database operation, wallet
    lookup and loop test is one step, and any call may take the next one. */
module Protocol {
  import opened Model
  import opened Ledger

  /** How old the committed state may be that a GetLatestTransaction inside a call sees. The code sets no
      read concern, so safety is proved for AnyCommitted, which allows every step the others allow. */
  datatype ReadConcern = AnyCommitted | SinceEarlyCheck | SinceAttempt

  datatype Point =
    | Early          // about to run EarlyCheck
    | WalletLookup   // no history: about to ask the wallet service for the phone
    | Peek           // transfer: about to read the receiver's latest row outside the session
    | ReceiverLookup // transfer: receiver without history, about to ask the wallet service
    | Begin          // top of the retry loop
    | ReadOwner      // in the callback, about to read the latest row of the deposit, withdrawal or sender phone
    | ReadReceiver   // in the transfer callback, about to read the receiver's latest row
    | Insert         // rows built, about to insert and commit
    | Replay         // after a duplicate reference, about to fetch the row by reference
    | FailBegin      // top of the loop that records the FAILED row
    | FailRead
    | FailInsert
    | Done(answer: Response)

  /** `row` and `credit` are the rows built by the last run of the callback (captured variables of the closures);
      `i` is the loop counter. The rest is bookkeeping the code does not have: `start` and `began` are the
      numbers of commits when EarlyCheck ran and when the current attempt began, `seen` and `seenReceiver` the
      states the last reads answered from, `conflicts` and `spurious` the genuine and the spurious sequence
      conflicts suffered, and `mine` the position of the call's own commit. */
  datatype Call = Call(
    req: Request, at: Point, i: nat, wallet: string, receiverWallet: string, row: Row, credit: Row,
    start: nat, began: nat, seen: nat, seenReceiver: nat, conflicts: nat, spurious: nat, mine: Option<nat>)

  const NO_ROW := Row(0, "", "", "", "", Deposit, Posted, 0, "", 0, 0, 0, "")

  function NewCall(req: Request): Call {
    Call(req, Early, 0, "", "", NO_ROW, NO_ROW, 0, 0, 0, 0, 0, 0, None)
  }

  /** What the outside world decides in a step. */
  datatype Choice =
    | Go                            // the operation answers from the current committed state
    | See(k: nat)                   // a read answers from the state after the first k commits
    | Say(answer: WalletAnswer)     // the wallet service answers
    | Write(id: nat, creditId: nat) // the inserts succeed with these generated ids and the session commits
    | RefusedReference              // duplicate key on unique_reference
    | RefusedSequence               // duplicate key on unique_wallet_sequence
    | WriteConflict                 // reported like a sequence conflict, whatever the committed rows
    | Rerun                         // the driver aborts the session and runs the callback again
    | Break                         // any other error

  function Answered(c: Call, answer: Response): Call {
    c.(at := Done(answer))
  }

  function FailWith(c: Call, error: Error): Call {
    Answered(c, Failure(error))
  }

  /** The answer built from a stored row, by EarlyCheck's caller and after a duplicate reference. */
  function ReplayOf(req: Request, found: Option<Row>): Response {
    match found
    case None => Failure(ErrTransactionNotFound)
    case Some(row) =>
      if !req.TransferRequest? then WalletResponse(row.id, row.wallet, row.status, row.after)
      else if row.status != Posted then Failure(ErrHalfTransferFail)
      else TransferResponse(row.id, row.wallet, row.status, row.after, row.before)
  }

  predicate ToSelf(req: Request) {
    req.TransferRequest? && req.sender == req.receiver
  }

  function AfterEarlyCheck(log: seq<Commit>, c: Call): Call {
    if ToSelf(c.req) then FailWith(c, ErrInvalidTransactionStatus)
    else
      var c := c.(start := |log|, began := |log|, seen := |log|);
      var processed := Find(log, RefOn(c.req.key, c.req.Owner()));
      var latest := Latest(log, c.req.Owner());
      if processed.Some? then Answered(c, ReplayOf(c.req, processed))
      else if latest.Some? then c.(wallet := latest.value.wallet, at := if c.req.TransferRequest? then Peek else Begin)
      else if c.req.TransferRequest? then FailWith(c, ErrInsufficientBalance)
      else c.(at := WalletLookup)
  }

  function AfterWalletLookup(c: Call, answer: WalletAnswer): Call {
    match answer
    case NoWallet => FailWith(c, ErrWalletNotFound)
    case WalletFailure => FailWith(c, ErrOther)
    case Wallet(id) =>
      if c.req.WithdrawalRequest? then FailWith(c, ErrInsufficientBalance)
      else c.(wallet := id, at := Begin)
  }

  function AfterPeek(log: seq<Commit>, c: Call, k: nat): Call
    requires k <= |log| && c.req.TransferRequest?
  {
    var latest := Latest(log[..k], c.req.receiver);
    if latest.Some? then c.(receiverWallet := latest.value.wallet, at := Begin)
    else c.(at := ReceiverLookup)
  }

  function AfterReceiverLookup(c: Call, answer: WalletAnswer): Call {
    match answer
    case NoWallet => FailWith(c, ErrWalletNotFound)
    case WalletFailure => FailWith(c, ErrOther)
    case Wallet(id) => c.(receiverWallet := id, at := Begin)
  }

  function AfterBegin(log: seq<Commit>, c: Call): Call {
    if c.i < MAX_RETRIES then c.(began := |log|, at := if c.at == FailBegin then FailRead else ReadOwner)
    else FailWith(c, ErrHighFrequencyTransaction)
  }

  function AfterReadOwner(log: seq<Commit>, c: Call, k: nat): Call
    requires k <= |log|
  {
    var c := c.(seen := k);
    var latest := Latest(log[..k], c.req.Owner());
    match c.req
    case DepositRequest(phone, amount, key) =>
      if OverCapacity(BalanceOf(latest), amount) then FailWith(c, ErrExceedsMaxBalance)
      else c.(row := DepositRow(latest, c.req, c.wallet, 0), at := Insert)
    case WithdrawalRequest(phone, amount, key) =>
      if Insufficient(BalanceOf(latest), amount) then FailWith(c, ErrInsufficientBalance)
      else c.(row := WithdrawalRow(latest, c.req, c.wallet, 0), at := Insert)
    case TransferRequest(sender, receiver, amount, key) =>
      if latest.None? then FailWith(c, ErrFirstTransaction)
      else if Insufficient(BalanceOf(latest), amount) then FailWith(c, ErrInsufficientBalance)
      else c.(row := DebitRow(latest, c.req, c.wallet, 0), at := ReadReceiver)
  }

  /** Over capacity, the first loop is left and the one that records the failure starts. */
  function AfterReadReceiver(log: seq<Commit>, c: Call, k: nat): Call
    requires k <= |log| && c.req.TransferRequest?
  {
    var c := c.(seenReceiver := k);
    var latest := Latest(log[..k], c.req.receiver);
    if OverCapacity(BalanceOf(latest), c.req.amount) then c.(i := 0, at := FailBegin)
    else c.(credit := CreditRow(latest, c.req, c.receiverWallet, 0), at := Insert)
  }

  function AfterFailRead(log: seq<Commit>, c: Call, k: nat): Call
    requires k <= |log| && c.req.TransferRequest?
  {
    var c := c.(seen := k);
    var latest := Latest(log[..k], c.req.sender);
    if latest.None? then FailWith(c, ErrFirstTransaction)
    else c.(row := FailedRow(latest.value, c.req, 0), at := FailInsert)
  }

  /** A read of a latest row, wherever the call makes it. */
  function AfterSee(log: seq<Commit>, c: Call, k: nat): Call
    requires k <= |log| && (c.at == ReadOwner || c.req.TransferRequest?)
  {
    if c.at == Peek then AfterPeek(log, c, k)
    else if c.at == ReadOwner then AfterReadOwner(log, c, k)
    else if c.at == ReadReceiver then AfterReadReceiver(log, c, k)
    else AfterFailRead(log, c, k)
  }

  /** The batch handed to the session. */
  function Draft(author: nat, c: Call, id: nat, creditId: nat): Commit {
    if c.req.TransferRequest? && c.at == Insert then Two(author, c.row.(id := id), c.credit.(id := creditId))
    else One(author, c.row.(id := id))
  }

  function AfterWrite(position: nat, c: Call, id: nat): Call {
    var c := c.(row := c.row.(id := id), mine := Some(position));
    if c.at == FailInsert then FailWith(c, ErrHalfTransferFail)
    else if c.req.TransferRequest? then
      Answered(c, TransferResponse(id, c.row.wallet, Posted, c.row.after, c.row.before))
    else
      Answered(c, WalletResponse(id, c.wallet, Posted, c.row.after))
  }

  function AfterDuplicateReference(c: Call): Call {
    if c.at == FailInsert then FailWith(c, ErrHalfTransferFail) else c.(at := Replay)
  }

  function AfterConflict(c: Call, spurious: bool): Call {
    var c := if spurious then c.(spurious := c.spurious + 1) else c.(conflicts := c.conflicts + 1);
    c.(i := c.i + 1, at := if c.at == FailInsert then FailBegin else Begin)
  }

  function AfterRerun(c: Call): Call {
    c.(at := if c.at == FailRead || c.at == FailInsert then FailRead else ReadOwner)
  }

  /* ---------- Steps ---------- */

  predicate Visible(mode: ReadConcern, log: seq<Commit>, c: Call, k: nat) {
    Floor(mode, c) <= k <= |log|
  }

  /** No read of the call answers from an older state than this. */
  function Floor(mode: ReadConcern, c: Call): nat {
    OldestVisible(mode, c.start, c.began)
  }

  function OldestVisible(mode: ReadConcern, start: nat, began: nat): nat {
    match mode
    case AnyCommitted => 0
    case SinceEarlyCheck => start
    case SinceAttempt => began
  }

  predicate CanInsert(author: nat, log: seq<Commit>, c: Call, choice: Choice) {
    match choice
    case Write(id, creditId) =>
      !HitsReference(log, Draft(author, c, id, creditId)) && !HitsSequence(log, Draft(author, c, id, creditId))
    case RefusedReference => HitsReference(log, Draft(author, c, 0, 0))
    case RefusedSequence => HitsSequence(log, Draft(author, c, 0, 0))
    case WriteConflict => true
    case Rerun => true
    case Break => true
    case _ => false
  }

  predicate Enabled(mode: ReadConcern, author: nat, log: seq<Commit>, c: Call, choice: Choice) {
    match c.at
    case Early => choice.Go? || (choice.Break? && !ToSelf(c.req))
    case WalletLookup => choice.Say?
    case ReceiverLookup => choice.Say?
    case Peek => c.req.TransferRequest? && ((choice.See? && Visible(mode, log, c, choice.k)) || choice.Break?)
    case Begin => choice.Go?
    case FailBegin => choice.Go?
    case ReadOwner => (choice.See? && Visible(mode, log, c, choice.k)) || choice.Rerun? || choice.Break?
    case ReadReceiver =>
      c.req.TransferRequest? && ((choice.See? && Visible(mode, log, c, choice.k)) || choice.Rerun? || choice.Break?)
    case FailRead =>
      c.req.TransferRequest? && ((choice.See? && Visible(mode, log, c, choice.k)) || choice.Rerun? || choice.Break?)
    case Insert => CanInsert(author, log, c, choice)
    case FailInsert => CanInsert(author, log, c, choice)
    case Replay => choice.Go? || choice.Break?
    case Done(_) => false
  }

  function Stepped(mode: ReadConcern, author: nat, log: seq<Commit>, c: Call, choice: Choice): Call
    requires Enabled(mode, author, log, c, choice)
  {
    match choice
    case Break => FailWith(c, ErrOther)
    case Rerun => AfterRerun(c)
    case Write(id, _) => AfterWrite(|log|, c, id)
    case RefusedReference => AfterDuplicateReference(c)
    case RefusedSequence => AfterConflict(c, false)
    case WriteConflict => AfterConflict(c, true)
    case Say(answer) => if c.at == WalletLookup then AfterWalletLookup(c, answer) else AfterReceiverLookup(c, answer)
    case See(k) => AfterSee(log, c, k)
    case Go =>
      if c.at == Early then AfterEarlyCheck(log, c)
      else if c.at == Replay then Answered(c, ReplayOf(c.req, Find(log, WithRef(c.req.key))))
      else AfterBegin(log, c)
  }

  function Grown(author: nat, log: seq<Commit>, c: Call, choice: Choice): seq<Commit> {
    if choice.Write? then log + [Draft(author, c, choice.id, choice.creditId)] else log
  }

  /* ---------- Runs ---------- */

  datatype System = System(log: seq<Commit>, calls: map<nat, Call>)

  datatype Event =
    | Arrive(call: nat, req: Request)
    | Act(call: nat, choice: Choice)

  predicate Possible(mode: ReadConcern, s: System, e: Event) {
    match e
    case Arrive(call, req) => call !in s.calls && req.Admitted()
    case Act(call, choice) => call in s.calls && Enabled(mode, call, s.log, s.calls[call], choice)
  }

  function Next(mode: ReadConcern, s: System, e: Event): System
    requires Possible(mode, s, e)
  {
    match e
    case Arrive(call, req) => s.(calls := s.calls[call := NewCall(req)])
    case Act(call, choice) =>
      System(Grown(call, s.log, s.calls[call], choice),
             s.calls[call := Stepped(mode, call, s.log, s.calls[call], choice)])
  }

  /** A run is the sequence of its events, from the empty collection. */
  predicate Run(mode: ReadConcern, events: seq<Event>)
    decreases |events|, 0
  {
    events == [] ||
    (Run(mode, events[..|events| - 1]) && Possible(mode, State(mode, events[..|events| - 1]), events[|events| - 1]))
  }

  function State(mode: ReadConcern, events: seq<Event>): System
    requires Run(mode, events)
    decreases |events|, 1
  {
    if events == [] then System([], map[])
    else Next(mode, State(mode, events[..|events| - 1]), events[|events| - 1])
  }

  lemma RunAppend(mode: ReadConcern, events: seq<Event>, e: Event)
    requires Run(mode, events) && Possible(mode, State(mode, events), e)
    ensures Run(mode, events + [e])
    ensures State(mode, events + [e]) == Next(mode, State(mode, events), e)
  {
    assert (events + [e])[..|events|] == events;
  }
}
