/** The transactions collection as the log of its commits, the queries of external/mongodb/repo.go over it,
    the two unique indexes, and what every commit of the service keeps true of the log. */
module Ledger {
  import opened Model

  /** One committed session: a single insert, or the coupled insert of a transfer.
      `author` is the call that committed. */
  datatype Commit =
    | One(author: nat, row: Row)
    | Two(author: nat, debit: Row, credit: Row)

  /** The rows in the order InsertMany is given them: deposit leg first. */
  function Rows(c: Commit): seq<Row> {
    match c
    case One(_, row) => [row]
    case Two(_, debit, credit) => [credit, debit]
  }

  /** The filters of the repository's queries. */
  datatype Query = Everything | OnPhone(phone: Phone) | WithRef(ref: Key) | RefOn(ref: Key, phone: Phone)

  predicate Hits(q: Query, r: Row) {
    match q
    case Everything => true
    case OnPhone(phone) => r.phone == phone
    case WithRef(ref) => r.ref == ref
    case RefOn(ref, phone) => r.ref == ref && r.phone == phone
  }

  function Pick(q: Query, rows: seq<Row>): seq<Row>
  {
    if rows == [] then []
    else Pick(q, rows[..|rows| - 1]) + if Hits(q, rows[|rows| - 1]) then [rows[|rows| - 1]] else []
  }

  /** The documents a filter matches, in commit order. */
  function Where(log: seq<Commit>, q: Query): seq<Row> {
    if log == [] then []
    else Where(log[..|log| - 1], q) + Pick(q, Rows(log[|log| - 1]))
  }

  /** Sort by sequence number descending, limit 1. */
  function Newest(rows: seq<Row>): (top: Option<Row>)
    ensures top.None? <==> rows == []
    ensures top.Some? ==> top.value in rows && forall r :: r in rows ==> r.seqNo <= top.value.seqNo
  {
    if rows == [] then None
    else
      var rest := Newest(rows[..|rows| - 1]);
      var last := rows[|rows| - 1];
      if rest.None? || rest.value.seqNo <= last.seqNo then Some(last) else rest
  }

  function Latest(log: seq<Commit>, p: Phone): Option<Row> {
    Newest(Where(log, OnPhone(p)))
  }

  /** Find one: any matching document will do, the model takes the oldest. */
  function Find(log: seq<Commit>, q: Query): Option<Row> {
    var rows := Where(log, q);
    if rows == [] then None else Some(rows[0])
  }

  function Balance(log: seq<Commit>, p: Phone): int {
    BalanceOf(Latest(log, p))
  }

  /* ---------- The two unique indexes ---------- */

  /** unique_reference holds an entry for this key. */
  predicate RefTaken(log: seq<Commit>, ref: Key) {
    Where(log, WithRef(ref)) != []
  }

  /** unique_wallet_sequence holds an entry for this pair. */
  predicate SeqTaken(log: seq<Commit>, p: Phone, n: nat) {
    exists r :: r in Where(log, OnPhone(p)) && r.seqNo == n
  }

  predicate HitsReference(log: seq<Commit>, c: Commit) {
    match c
    case One(_, row) => RefTaken(log, row.ref)
    case Two(_, debit, credit) => RefTaken(log, debit.ref) || RefTaken(log, credit.ref) || debit.ref == credit.ref
  }

  predicate HitsSequence(log: seq<Commit>, c: Commit) {
    match c
    case One(_, row) => SeqTaken(log, row.phone, row.seqNo)
    case Two(_, debit, credit) =>
      SeqTaken(log, debit.phone, debit.seqNo) || SeqTaken(log, credit.phone, credit.seqNo)
      || (debit.phone == credit.phone && debit.seqNo == credit.seqNo)
  }

  /* ---------- Facts about queries ---------- */

  lemma WhereAppend(log: seq<Commit>, c: Commit, q: Query)
    ensures Where(log + [c], q) == Where(log, q) + Pick(q, Rows(c))
  {
    assert (log + [c])[..|log|] == log;
  }

  /** Earlier answers are prefixes of later ones. */
  lemma {:induction false} WherePrefix(log: seq<Commit>, k: nat, q: Query)
    requires k <= |log|
    ensures Where(log[..k], q) <= Where(log, q)
  {
    if k < |log| {
      var shorter := log[..|log| - 1];
      assert shorter[..k] == log[..k];
      WherePrefix(shorter, k, q);
    } else {
      assert log[..k] == log;
    }
  }

  lemma PickRows(q: Query, c: Commit)
    ensures c.One? ==> Pick(q, Rows(c)) == if Hits(q, c.row) then [c.row] else []
    ensures c.Two? ==>
              Pick(q, Rows(c))
              == (if Hits(q, c.credit) then [c.credit] else []) + (if Hits(q, c.debit) then [c.debit] else [])
  {
    match c
    case One(_, row) =>
      assert Rows(c)[..0] == [];
    case Two(_, debit, credit) =>
      assert Rows(c)[..1] == [credit];
      assert [credit][..0] == [];
      assert Pick(q, [credit]) == if Hits(q, credit) then [credit] else [];
  }

  /** A filter selects from the whole collection. */
  lemma {:induction false} WhereHits(log: seq<Commit>, q: Query, r: Row)
    ensures r in Where(log, q) <==> Hits(q, r) && r in Where(log, Everything)
  {
    if log != [] {
      var c := log[|log| - 1];
      WhereHits(log[..|log| - 1], q, r);
      PickRows(q, c);
      PickRows(Everything, c);
    }
  }

  /** The collection holds the rows of its commits. */
  lemma {:induction false} RowsCommitted(log: seq<Commit>, i: nat, r: Row)
    requires i < |log| && r in Rows(log[i])
    ensures r in Where(log, Everything)
  {
    var shorter, c := log[..|log| - 1], log[|log| - 1];
    PickRows(Everything, c);
    if i < |shorter| {
      assert shorter[i] == log[i];
      RowsCommitted(shorter, i, r);
    }
  }

  /** And nothing else. */
  lemma {:induction false} CommittedBy(log: seq<Commit>, r: Row) returns (i: nat)
    requires r in Where(log, Everything)
    ensures i < |log| && r in Rows(log[i])
  {
    var shorter, c := log[..|log| - 1], log[|log| - 1];
    PickRows(Everything, c);
    if r in Where(shorter, Everything) {
      i := CommittedBy(shorter, r);
      assert shorter[i] == log[i];
    } else {
      i := |log| - 1;
    }
  }

  /* ---------- What one commit must look like ---------- */

  /** The amount the row moves on its own phone. */
  function Signed(r: Row): int {
    match r.status
    case Failed => 0
    case Posted =>
      match r.kind
      case Deposit => r.amount
      case Withdrawal => -r.amount
      case Transfer => if r.phone == r.sender then -r.amount else r.amount
  }

  predicate RowOk(r: Row) {
    && 1 <= r.amount <= INT64_MAX
    && 0 <= r.before <= WALLET_MAX
    && 0 <= r.after <= WALLET_MAX
    && r.after == r.before + Signed(r)
  }

  predicate IsDebitLeg(r: Row) {
    r.kind == Transfer && r.status == Posted && r.phone == r.sender && r.sender != r.receiver
  }

  predicate IsCreditLeg(r: Row) {
    r.kind == Transfer && r.status == Posted && r.phone == r.receiver && r.sender != r.receiver
  }

  predicate IsRefusal(r: Row) {
    r.kind == Transfer && r.status == Failed && r.phone == r.sender && r.sender != r.receiver && r.failedReason != ""
  }

  predicate Coupled(debit: Row, credit: Row) {
    && IsDebitLeg(debit) && IsCreditLeg(credit)
    && credit.ref == debit.ref + DEPOSIT_SUFFIX
    && credit.amount == debit.amount
    && credit.sender == debit.sender && credit.receiver == debit.receiver
  }

  predicate ShapeOk(c: Commit) {
    match c
    case One(_, row) =>
      || (row.kind != Transfer && row.status == Posted)
      || (IsRefusal(row) && row.seqNo > 1)
    case Two(_, debit, credit) => Coupled(debit, credit)
  }

  /** The row continues its phone's chain as it stands in the log, under a key not yet used. */
  predicate RowFits(log: seq<Commit>, r: Row) {
    && RowOk(r)
    && r.seqNo == |Where(log, OnPhone(r.phone))| + 1
    && r.before == Balance(log, r.phone)
    && !RefTaken(log, r.ref)
  }

  predicate Fits(log: seq<Commit>, c: Commit) {
    ShapeOk(c) && forall r :: r in Rows(c) ==> RowFits(log, r)
  }

  /** Every commit fitted the log it was appended to. */
  predicate Sound(log: seq<Commit>) {
    log == [] || (Sound(log[..|log| - 1]) && Fits(log[..|log| - 1], log[|log| - 1]))
  }

  lemma SoundAppend(log: seq<Commit>, c: Commit)
    requires Sound(log) && Fits(log, c)
    ensures Sound(log + [c])
  {
    assert (log + [c])[..|log|] == log;
  }

  lemma {:induction false} SoundPrefix(log: seq<Commit>, k: nat)
    requires Sound(log) && k <= |log|
    ensures Sound(log[..k])
    ensures k < |log| ==> Fits(log[..k], log[k])
  {
    if k == |log| {
      assert log[..k] == log;
    } else {
      var shorter := log[..|log| - 1];
      assert shorter[..k] == log[..k];
      SoundPrefix(shorter, k);
      assert k < |shorter| ==> shorter[k] == log[k];
    }
  }

  /* ---------- Chains ---------- */

  predicate Linked(rows: seq<Row>, i: nat)
    requires i < |rows|
  {
    && rows[i].seqNo == i + 1
    && rows[i].before == (if i == 0 then 0 else rows[i - 1].after)
    && RowOk(rows[i])
  }

  /** Sequence numbers 1..n, first balance_before 0, each balance_before the previous balance_after. */
  predicate ChainOk(rows: seq<Row>) {
    forall i: nat :: i < |rows| ==> Linked(rows, i)
  }

  lemma ChainPrefix(rows: seq<Row>, n: nat)
    requires ChainOk(rows) && n <= |rows|
    ensures ChainOk(rows[..n])
  {
    forall i: nat | i < n ensures Linked(rows[..n], i) {
      assert Linked(rows, i);
    }
  }

  /** In a chain the row with the greatest sequence number is the last one committed. */
  lemma NewestOfChain(rows: seq<Row>)
    requires ChainOk(rows)
    ensures Newest(rows) == if rows == [] then None else Some(rows[|rows| - 1])
  {
    if rows != [] {
      var n := |rows| - 1;
      assert Linked(rows, n);
      var top := Newest(rows).value;
      assert rows[n] in rows;
      var i: nat :| i < |rows| && rows[i] == top;
      assert Linked(rows, i);
    }
  }

  /** A commit adds at most one row to a phone. */
  lemma PickOnPhone(c: Commit, p: Phone)
    requires ShapeOk(c)
    ensures var added := Pick(OnPhone(p), Rows(c));
            added == [] || (|added| == 1 && added[0] in Rows(c) && added[0].phone == p)
  {
    PickRows(OnPhone(p), c);
  }

  lemma ChainAppend(rows: seq<Row>, r: Row)
    requires ChainOk(rows) && RowOk(r)
    requires r.seqNo == |rows| + 1
    requires r.before == BalanceOf(Newest(rows))
    ensures ChainOk(rows + [r])
  {
    NewestOfChain(rows);
    forall i: nat | i < |rows + [r]| ensures Linked(rows + [r], i) {
      if i < |rows| { assert Linked(rows, i); }
    }
  }

  lemma {:induction false} Chained(log: seq<Commit>, p: Phone)
    requires Sound(log)
    ensures ChainOk(Where(log, OnPhone(p)))
  {
    if log != [] {
      var shorter, c := log[..|log| - 1], log[|log| - 1];
      Chained(shorter, p);
      PickOnPhone(c, p);
      var added := Pick(OnPhone(p), Rows(c));
      if added != [] {
        assert added == [added[0]];
        assert RowFits(shorter, added[0]);
        ChainAppend(Where(shorter, OnPhone(p)), added[0]);
      } else {
        assert Where(log, OnPhone(p)) == Where(shorter, OnPhone(p));
      }
    }
  }

  /** Chain invariant: every phone's rows, POSTED and FAILED, of deposits, withdrawals and both legs of
      transfers, form one unbroken chain, and the query for the latest row finds its end. */
  lemma ChainInvariant(log: seq<Commit>, p: Phone)
    requires Sound(log)
    ensures ChainOk(Where(log, OnPhone(p)))
    ensures var rows := Where(log, OnPhone(p));
            Latest(log, p) == if rows == [] then None else Some(rows[|rows| - 1])
    ensures SeqAfter(Latest(log, p)) == |Where(log, OnPhone(p))| + 1
    ensures 0 <= Balance(log, p) <= WALLET_MAX
  {
    Chained(log, p);
    var rows := Where(log, OnPhone(p));
    NewestOfChain(rows);
    assert rows != [] ==> Linked(rows, |rows| - 1);
  }

  /** A sequence number is taken exactly when the chain has reached it. */
  lemma SeqTakenIff(log: seq<Commit>, p: Phone, n: nat)
    requires Sound(log)
    ensures SeqTaken(log, p, n) <==> 1 <= n <= |Where(log, OnPhone(p))|
  {
    ChainInvariant(log, p);
    var rows := Where(log, OnPhone(p));
    if 1 <= n <= |rows| {
      assert Linked(rows, n - 1) && rows[n - 1] in rows;
    }
    if SeqTaken(log, p, n) {
      var i: nat :| i < |rows| && rows[i].seqNo == n;
      assert Linked(rows, i);
    }
  }

  /** Stale reads are harmless: if the successor of the row that was latest in some earlier committed
      state is not refused, then that row is still the latest. */
  lemma StaleReadHarmless(log: seq<Commit>, k: nat, p: Phone)
    requires Sound(log) && k <= |log|
    requires !SeqTaken(log, p, SeqAfter(Latest(log[..k], p)))
    ensures Where(log[..k], OnPhone(p)) == Where(log, OnPhone(p))
    ensures Latest(log[..k], p) == Latest(log, p)
    ensures SeqAfter(Latest(log, p)) == |Where(log, OnPhone(p))| + 1
  {
    SoundPrefix(log, k);
    ChainInvariant(log[..k], p);
    ChainInvariant(log, p);
    SeqTakenIff(log, p, SeqAfter(Latest(log[..k], p)));
    WherePrefix(log, k, OnPhone(p));
  }

  /* ---------- Keys ---------- */

  lemma SuffixDiffers(ref: Key)
    ensures ref + DEPOSIT_SUFFIX != ref
  {
    assert |ref + DEPOSIT_SUFFIX| == |ref| + 8;
  }

  lemma SuffixInjective(a: Key, b: Key)
    requires a + DEPOSIT_SUFFIX == b + DEPOSIT_SUFFIX
    ensures a == b
  {
    assert a == (a + DEPOSIT_SUFFIX)[..|a|];
    assert b == (b + DEPOSIT_SUFFIX)[..|b|];
  }

  /** At most one row is ever committed under a reference. */
  lemma {:induction false} UniqueReference(log: seq<Commit>, ref: Key)
    requires Sound(log)
    ensures |Where(log, WithRef(ref))| <= 1
  {
    if log != [] {
      var n := |log| - 1;
      UniqueReference(log[..n], ref);
      var c := log[n];
      PickRows(WithRef(ref), c);
      match c {
        case One(_, row) =>
          assert row in Rows(c);
        case Two(_, debit, credit) =>
          assert debit in Rows(c) && credit in Rows(c);
          SuffixDiffers(debit.ref);
      }
    }
  }

  /** Two rows with the same reference are the same row. */
  lemma SameReferenceSameRow(log: seq<Commit>, a: Row, b: Row)
    requires Sound(log)
    requires a in Where(log, Everything) && b in Where(log, Everything)
    requires a.ref == b.ref
    ensures a == b
    ensures Find(log, WithRef(a.ref)) == Some(a)
  {
    hide Where, Sound;
    WhereHits(log, Everything, a);
    WhereHits(log, Everything, b);
    WhereHits(log, WithRef(a.ref), a);
    WhereHits(log, WithRef(a.ref), b);
    UniqueReference(log, a.ref);
  }

  /** A row found once is found ever after. */
  lemma FindStable(log: seq<Commit>, k: nat, q: Query)
    requires k <= |log|
    requires Find(log[..k], q).Some?
    ensures Find(log, q) == Find(log[..k], q)
  {
    WherePrefix(log, k, q);
  }

  /** The sub-pipeline of EarlyCheck agrees with the lookup by reference alone. */
  lemma FindOnPhone(log: seq<Commit>, ref: Key, p: Phone)
    requires Sound(log)
    ensures Find(log, RefOn(ref, p)).Some? ==> Find(log, WithRef(ref)) == Find(log, RefOn(ref, p))
  {
    hide Where, Sound;
    var hit := Find(log, RefOn(ref, p));
    if hit.Some? {
      var r := hit.value;
      assert r in Where(log, RefOn(ref, p));
      WhereHits(log, RefOn(ref, p), r);
      WhereHits(log, WithRef(ref), r);
      UniqueReference(log, ref);
    }
  }
}
