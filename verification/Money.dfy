/** Sums over the ledger: conservation, recomputation of balances, the POSTED-only projection, and the limits
    on what can be spent. */
module Money {
  import opened Model
  import opened Ledger
  import opened Protocol
  import opened Safety
  import opened SequentialBank

  /* ---------- Sum of a map ---------- */

  ghost function Sum(m: map<Phone, int>): int
    decreases |m.Keys|
  {
    if m.Keys == {} then 0
    else
      var p :| p in m.Keys;
      m[p] + Sum(m - {p})
  }

  lemma {:induction false} SumWithout(m: map<Phone, int>, p: Phone)
    requires p in m
    ensures Sum(m) == m[p] + Sum(m - {p})
    decreases |m.Keys|
  {
    var q :| q in m.Keys && Sum(m) == m[q] + Sum(m - {q});
    if q != p {
      SumWithout(m - {q}, p);
      SumWithout(m - {p}, q);
      assert m - {q} - {p} == m - {p} - {q};
    }
  }

  lemma SumUpdate(b: Bank, p: Phone, v: int)
    ensures Sum(b.balances[p := v]) == Sum(b.balances) - b.Held(p) + v
  {
    var m := b.balances;
    SumWithout(m[p := v], p);
    assert m[p := v] - {p} == m - {p};
    if p in m {
      SumWithout(m, p);
    } else {
      assert m - {p} == m;
    }
  }

  /* ---------- Conservation ---------- */

  /** Sum of the POSTED amounts of a kind. */
  function PostedTotal(rows: seq<Row>, kind: Kind): int {
    if rows == [] then 0
    else
      var last := rows[|rows| - 1];
      PostedTotal(rows[..|rows| - 1], kind) + if last.kind == kind && last.status == Posted then last.amount else 0
  }

  /** All the money in the bank the collection shows. */
  ghost function Holdings(log: seq<Commit>): int {
    Sum(Observe(log).balances)
  }

  function Moved(log: seq<Commit>, kind: Kind): int {
    PostedTotal(Where(log, Everything), kind)
  }

  lemma MovedAppend(log: seq<Commit>, c: Commit, kind: Kind)
    requires ShapeOk(c)
    ensures Moved(log + [c], kind)
         == Moved(log, kind)
            + (if c.One? && c.row.kind == kind && c.row.status == Posted then c.row.amount else 0)
            + (if c.Two? && kind == Transfer then 2 * c.debit.amount else 0)
  {
    hide Where;
    WhereAppend(log, c, Everything);
    PickRows(Everything, c);
    var rows := Where(log, Everything);
    if c.One? {
      assert (rows + [c.row])[..|rows|] == rows;
    } else {
      var one := rows + [c.credit];
      assert one[..|rows|] == rows;
      var two := rows + [c.credit, c.debit];
      assert two[..|rows| + 1] == one;
      assert PostedTotal(two, kind) == PostedTotal(one, kind) + if kind == Transfer then c.debit.amount else 0;
      assert Where(log + [c], Everything) == two;
    }
  }

  /** What one commit adds to the money in the bank. */
  lemma MoneyStep(log: seq<Commit>, c: Commit)
    requires Sound(log) && Fits(log, c)
    ensures Holdings(log + [c]) == Holdings(log) + if c.One? then Signed(c.row) else 0
  {
    hide Observe, Sound, Sum, RowFits;
    StepRefines(log, c);
    var b := Observe(log);
    match OperationOf(c)
    case Credit(phone, amount, key) => SumUpdate(b, phone, b.Held(phone) + amount);
    case Debit(phone, amount, key) => SumUpdate(b, phone, b.Held(phone) - amount);
    case Move(sender, receiver, amount, key) =>
      SumUpdate(b, sender, b.Held(sender) - amount);
      var mid := b.(balances := b.balances[sender := b.Held(sender) - amount]);
      assert mid.Held(receiver) == b.Held(receiver);
      SumUpdate(mid, receiver, b.Held(receiver) + amount);
    case Refuse(_, _) =>
  }

  lemma NothingHeld()
    ensures Holdings([]) == 0 && Moved([], Deposit) == 0 && Moved([], Withdrawal) == 0
  {
    ObserveNothing();
  }

  lemma SignedOfSingle(c: Commit)
    requires ShapeOk(c) && c.One?
    ensures Signed(c.row) == (if c.row.status == Posted && c.row.kind == Deposit then c.row.amount else 0)
                           - (if c.row.status == Posted && c.row.kind == Withdrawal then c.row.amount else 0)
  {
  }

  lemma {:induction false} Conservation(log: seq<Commit>)
    requires Sound(log)
    ensures Holdings(log) == Moved(log, Deposit) - Moved(log, Withdrawal)
  {
    hide Holdings, RowFits, Moved, ShapeOk, Signed;
    if log == [] {
      NothingHeld();
    } else {
      var shorter, c := log[..|log| - 1], log[|log| - 1];
      assert shorter + [c] == log;
      Conservation(shorter);
      MoneyStep(shorter, c);
      MovedAppend(shorter, c, Deposit);
      MovedAppend(shorter, c, Withdrawal);
      if c.One? { SignedOfSingle(c); }
    }
  }

  /** Conservation: in every reachable state the latest balances of all phones add up to the POSTED deposits
      less the POSTED withdrawals. Transfers and FAILED rows do not change the sum. */
  lemma RunConservesMoney(mode: ReadConcern, events: seq<Event>)
    requires Run(mode, events)
    ensures var log := State(mode, events).log;
            Holdings(log) == Moved(log, Deposit) - Moved(log, Withdrawal)
  {
    RunKeepsInvariant(mode, events);
    Conservation(State(mode, events).log);
  }

  /* ---------- Recomputation and the change stream ---------- */

  /** Fold of the signed POSTED amounts. */
  function Net(rows: seq<Row>): int {
    if rows == [] then 0 else Net(rows[..|rows| - 1]) + Signed(rows[|rows| - 1])
  }

  /** The documents the change stream lets through. */
  function PostedOnly(rows: seq<Row>): seq<Row> {
    if rows == [] then []
    else
      var last := rows[|rows| - 1];
      PostedOnly(rows[..|rows| - 1]) + if last.status == Posted then [last] else []
  }

  /** What a consumer holds that sets its balance to each event's balance_after. */
  function Projected(rows: seq<Row>): int {
    if rows == [] then 0 else rows[|rows| - 1].after
  }

  lemma PostedOnlyStep(rows: seq<Row>)
    requires rows != []
    ensures var shorter, last := PostedOnly(rows[..|rows| - 1]), rows[|rows| - 1];
            && Net(PostedOnly(rows)) == Net(shorter) + Signed(last)
            && Projected(PostedOnly(rows)) == if last.status == Posted then last.after else Projected(shorter)
  {
    var shorter, last := PostedOnly(rows[..|rows| - 1]), rows[|rows| - 1];
    if last.status == Posted {
      assert PostedOnly(rows) == shorter + [last];
      assert (shorter + [last])[..|shorter|] == shorter;
    } else {
      assert PostedOnly(rows) == shorter;
    }
  }

  lemma {:induction false} ChainRecomputes(rows: seq<Row>)
    requires ChainOk(rows)
    ensures Projected(rows) == Net(rows) == Net(PostedOnly(rows)) == Projected(PostedOnly(rows))
  {
    if rows != [] {
      hide PostedOnly;
      var n := |rows| - 1;
      ChainPrefix(rows, n);
      ChainRecomputes(rows[..n]);
      assert Linked(rows, n);
      PostedOnlyStep(rows);
    }
  }

  /** The running balance equals the recomputation from the whole history, and the consumer that never
      sees the FAILED rows holds the same balance. */
  lemma RunningBalanceRecomputes(mode: ReadConcern, events: seq<Event>, p: Phone)
    requires Run(mode, events)
    ensures var log := State(mode, events).log;
            var rows := Where(log, OnPhone(p));
            Balance(log, p) == Net(rows) == Net(PostedOnly(rows)) == Projected(PostedOnly(rows))
  {
    hide Where, Newest, Sound, Net, PostedOnly, ChainOk, Run;
    RunKeepsInvariant(mode, events);
    var log := State(mode, events).log;
    ChainInvariant(log, p);
    ChainRecomputes(Where(log, OnPhone(p)));
  }
}
