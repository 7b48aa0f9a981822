/** The ledger row, the requests and their answers, and the 64-bit arithmetic of the service
    (internal/transactions/model.go, dto.go and the row literals of service.go). */
module Model {

  datatype Option<+T> = None | Some(value: T)

  type Phone = string
  type Key = string

  const WALLET_MAX := 9000000000000000
  const MAX_RETRIES := 100
  const DEPOSIT_SUFFIX: string := "_deposit"
  const EXCEEDS_REASON: string := "Exceeds maximum balance"

  const INT64_MAX := 0x7fff_ffff_ffff_ffff
  const INT64_MIN := -0x8000_0000_0000_0000
  const TWO_64 := 0x1_0000_0000_0000_0000

  predicate IsInt64(x: int) {
    INT64_MIN <= x <= INT64_MAX
  }

  /** Two's complement truncation: what Go leaves in an int64 when the exact result is x. */
  function Wrap(x: int): (r: int)
    ensures IsInt64(r)
    ensures (r - x) % TWO_64 == 0
    ensures IsInt64(x) ==> r == x
  {
    if IsInt64(x) then x else (x - INT64_MIN) % TWO_64 + INT64_MIN
  }

  datatype Kind = Deposit | Withdrawal | Transfer
  datatype Status = Posted | Failed

  /** One document of the transactions collection. `id` is the ObjectID the driver generates.
      The two party fields are empty for deposits and withdrawals. */
  datatype Row = Row(
    id: nat, ref: Key, phone: Phone, sender: Phone, receiver: Phone,
    kind: Kind, status: Status, amount: int, wallet: string,
    before: int, after: int, seqNo: nat, failedReason: string)

  datatype Request =
    | DepositRequest(phone: Phone, amount: int, key: Key)
    | WithdrawalRequest(phone: Phone, amount: int, key: Key)
    | TransferRequest(sender: Phone, receiver: Phone, amount: int, key: Key)
  {
    /** The phone EarlyCheck is asked about. */
    function Owner(): Phone {
      if TransferRequest? then sender else phone
    }

    predicate Touches(p: Phone) {
      p == Owner() || (TransferRequest? && p == receiver)
    }

    /** What the HTTP handlers let through. */
    predicate Admitted() {
      1 <= amount <= INT64_MAX && key != ""
    }
  }

  datatype Error =
    | ErrWalletNotFound
    | ErrInvalidPhoneNumber
    | ErrInsufficientBalance
    | ErrExceedsMaxBalance
    | ErrFirstTransaction
    | ErrDuplicateSequence
    | ErrDuplicateReferenceID
    | ErrInvalidTransactionStatus
    | ErrTransactionNotFound
    | ErrHighFrequencyTransaction
    | ErrHalfTransferFail
    | ErrOther // any driver, network or context error the code only passes on

  datatype Response =
    | WalletResponse(id: nat, wallet: string, status: Status, balance: int)
    | TransferResponse(id: nat, wallet: string, status: Status, balanceAfter: int, balanceBefore: int)
    | Failure(error: Error)

  /** The answer of the wallet service for a phone. */
  datatype WalletAnswer = Wallet(id: string) | NoWallet | WalletFailure

  function SeqAfter(prev: Option<Row>): nat {
    if prev.None? then 1 else prev.value.seqNo + 1
  }

  function BalanceOf(prev: Option<Row>): int {
    if prev.None? then 0 else prev.value.after
  }

  /** `oldBalance > WalletMax-req.Amount` in int64. */
  predicate OverCapacity(held: int, amount: int) {
    held > Wrap(WALLET_MAX - amount)
  }

  /** `oldBalance-req.Amount < 0` in int64. */
  predicate Insufficient(held: int, amount: int) {
    Wrap(held - amount) < 0
  }

  function DepositRow(prev: Option<Row>, req: Request, wallet: string, id: nat): Row
    requires req.DepositRequest?
  {
    Row(id, req.key, req.phone, "", "", Deposit, Posted, req.amount, wallet,
        BalanceOf(prev), Wrap(BalanceOf(prev) + req.amount), SeqAfter(prev), "")
  }

  function WithdrawalRow(prev: Option<Row>, req: Request, wallet: string, id: nat): Row
    requires req.WithdrawalRequest?
  {
    Row(id, req.key, req.phone, "", "", Withdrawal, Posted, req.amount, wallet,
        BalanceOf(prev), Wrap(BalanceOf(prev) - req.amount), SeqAfter(prev), "")
  }

  function DebitRow(prev: Option<Row>, req: Request, wallet: string, id: nat): Row
    requires req.TransferRequest?
  {
    Row(id, req.key, req.sender, req.sender, req.receiver, Transfer, Posted, req.amount, wallet,
        BalanceOf(prev), Wrap(BalanceOf(prev) - req.amount), SeqAfter(prev), "")
  }

  function CreditRow(prev: Option<Row>, req: Request, wallet: string, id: nat): Row
    requires req.TransferRequest?
  {
    Row(id, req.key + DEPOSIT_SUFFIX, req.receiver, req.sender, req.receiver, Transfer, Posted, req.amount, wallet,
        BalanceOf(prev), Wrap(BalanceOf(prev) + req.amount), SeqAfter(prev), "")
  }

  function FailedRow(prev: Row, req: Request, id: nat): Row
    requires req.TransferRequest?
  {
    Row(id, req.key, req.sender, req.sender, req.receiver, Transfer, Failed, req.amount, prev.wallet,
        prev.after, prev.after, prev.seqNo + 1, "Receiver: " + EXCEEDS_REASON)
  }

  /** The reason recorded with a refused transfer. */
  lemma ReasonText()
    ensures "Receiver: " + EXCEEDS_REASON == "Receiver: Exceeds maximum balance"
  {
  }

  /** While every balance stays in 0..WALLET_MAX, no expression of the three operations leaves int64,
      whatever the positive amount, so the two int64 guards decide the exact comparisons. */
  lemma NoOverflow(held: int, amount: int)
    requires 0 <= held <= WALLET_MAX
    requires 1 <= amount <= INT64_MAX
    ensures IsInt64(WALLET_MAX - amount) && IsInt64(held - amount)
    ensures OverCapacity(held, amount) <==> held + amount > WALLET_MAX
    ensures Insufficient(held, amount) <==> held < amount
    ensures !OverCapacity(held, amount) ==> IsInt64(held + amount) && Wrap(held + amount) == held + amount
    ensures !Insufficient(held, amount) ==> Wrap(held - amount) == held - amount
  {
  }
}
