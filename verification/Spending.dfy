/** What concurrent calls can spend of one phone's balance, and the formulas the isolation tests check. */
module Spending {
  import opened Model
  import opened Ledger
  import opened Protocol
  import opened Safety
  import opened Money

  function Incoming(rows: seq<Row>): int {
    if rows == [] then 0
    else Incoming(rows[..|rows| - 1]) + var m := Signed(rows[|rows| - 1]); if m > 0 then m else 0
  }

  function Outgoing(rows: seq<Row>): (sum: int)
    ensures sum >= 0
  {
    if rows == [] then 0
    else Outgoing(rows[..|rows| - 1]) + var m := Signed(rows[|rows| - 1]); if m < 0 then -m else 0
  }

  /** The rows of a phone committed after the first k commits. */
  function Since(log: seq<Commit>, k: nat, p: Phone): seq<Row>
    requires k <= |log|
  {
    WherePrefix(log, k, OnPhone(p));
    Where(log, OnPhone(p))[|Where(log[..k], OnPhone(p))|..]
  }

  lemma {:induction false} ChainSegment(rows: seq<Row>, k: nat)
    requires ChainOk(rows) && k <= |rows|
    ensures Projected(rows) == Projected(rows[..k]) + Incoming(rows[k..]) - Outgoing(rows[k..])
  {
    if k == |rows| {
      assert rows[..k] == rows;
    } else {
      hide RowOk;
      var n := |rows| - 1;
      ChainPrefix(rows, n);
      ChainSegment(rows[..n], k);
      assert rows[..n][..k] == rows[..k];
      assert rows[..n][k..] == rows[k..][..n - k];
      assert Linked(rows, n);
      LinkMoves(rows, n);
    }
  }

  lemma LinkMoves(rows: seq<Row>, n: nat)
    requires n < |rows| && Linked(rows, n)
    ensures rows[n].after == Projected(rows[..n]) + Signed(rows[n])
  {
  }

  lemma BalanceIsLast(log: seq<Commit>, p: Phone)
    requires Sound(log)
    ensures Balance(log, p) == Projected(Where(log, OnPhone(p))) >= 0
    ensures ChainOk(Where(log, OnPhone(p)))
  {
    hide Where, Newest, Sound;
    ChainInvariant(log, p);
  }

  /** What a phone holds is what it held before, plus what came in, less what went out. */
  lemma BalanceSince(log: seq<Commit>, k: nat, p: Phone)
    requires Sound(log) && k <= |log|
    ensures Balance(log, p) == Balance(log[..k], p) + Incoming(Since(log, k, p)) - Outgoing(Since(log, k, p))
    ensures Balance(log, p) >= 0
  {
    hide Where, Sound, Newest, Incoming, Outgoing, ChainOk, Fits, Balance, Projected;
    SoundPrefix(log, k);
    BalanceIsLast(log, p);
    BalanceIsLast(log[..k], p);
    WherePrefix(log, k, OnPhone(p));
    ChainSegment(Where(log, OnPhone(p)), |Where(log[..k], OnPhone(p))|);
    assert Where(log, OnPhone(p))[..|Where(log[..k], OnPhone(p))|] == Where(log[..k], OnPhone(p));
  }

  /* ---------- Sums over sets of calls ---------- */

  /** What the commits after the first k, made by calls of the set, took from the phone. */
  function SpentBy(log: seq<Commit>, k: nat, p: Phone, s: set<nat>): int {
    if |log| <= k then 0
    else
      var c := log[|log| - 1];
      SpentBy(log[..|log| - 1], k, p, s) + if c.author in s then Outgoing(Pick(OnPhone(p), Rows(c))) else 0
  }

  /** Sum of the amounts the calls of the set ask for. */
  ghost function Asked(calls: map<nat, Call>, s: set<nat>): int
    requires s <= calls.Keys
  {
    if s == {} then 0
    else
      var id :| id in s;
      calls[id].req.amount + Asked(calls, s - {id})
  }

  lemma {:induction false} OutgoingConcat(a: seq<Row>, b: seq<Row>)
    ensures Outgoing(a + b) == Outgoing(a) + Outgoing(b)
  {
    if b == [] {
      assert a + b == a;
    } else {
      assert (a + b)[..|a + b| - 1] == a + b[..|b| - 1];
      OutgoingConcat(a, b[..|b| - 1]);
    }
  }

  lemma SinceAppend(log: seq<Commit>, k: nat, p: Phone, c: Commit)
    requires k <= |log|
    ensures Since(log + [c], k, p) == Since(log, k, p) + Pick(OnPhone(p), Rows(c))
  {
    hide Where;
    assert (log + [c])[..k] == log[..k];
    WhereAppend(log, c, OnPhone(p));
    WherePrefix(log, k, OnPhone(p));
  }

  lemma {:induction false} SpentByBounded(log: seq<Commit>, k: nat, p: Phone, s: set<nat>)
    requires k <= |log|
    ensures SpentBy(log, k, p, s) <= Outgoing(Since(log, k, p))
  {
    if k < |log| {
      hide Since, Outgoing, Pick;
      var shorter, c := log[..|log| - 1], log[|log| - 1];
      SpentByBounded(shorter, k, p, s);
      assert shorter + [c] == log;
      SinceAppend(shorter, k, p, c);
      OutgoingConcat(Since(shorter, k, p), Pick(OnPhone(p), Rows(c)));
    }
  }

  lemma {:induction false} SpentByOthers(log: seq<Commit>, k: nat, p: Phone, s: set<nat>, id: nat)
    requires forall i :: 0 <= i < |log| ==> log[i].author != id
    ensures SpentBy(log, k, p, s) == SpentBy(log, k, p, s - {id})
  {
    if |log| > k {
      SpentByOthers(log[..|log| - 1], k, p, s, id);
    }
  }

  /** Taking a call with exactly one commit out of the set takes away exactly that commit's debit. */
  lemma {:induction false} SpentByWithout(log: seq<Commit>, k: nat, p: Phone, s: set<nat>, id: nat, j: nat)
    requires id in s && k <= j < |log|
    requires forall i :: 0 <= i < |log| ==> (log[i].author == id <==> i == j)
    ensures SpentBy(log, k, p, s) == SpentBy(log, k, p, s - {id}) + Outgoing(Pick(OnPhone(p), Rows(log[j])))
  {
    hide Outgoing, Pick;
    var shorter := log[..|log| - 1];
    assert forall i :: 0 <= i < |shorter| ==> shorter[i] == log[i];
    if j == |log| - 1 {
      SpentByOthers(shorter, k, p, s, id);
    } else {
      SpentByWithout(shorter, k, p, s, id, j);
    }
  }

  /* ---------- No double spend ---------- */

  /** The call freshly succeeded, after the first k commits, in taking its amount from the phone. */
  predicate TookFrom(c: Call, p: Phone, k: nat) {
    && !c.req.DepositRequest? && c.req.Owner() == p
    && c.mine.Some? && k <= c.mine.value
    && c.at.Done? && !c.at.answer.Failure?
  }

  lemma OutgoingOne(row: Row)
    ensures Outgoing([row]) == if Signed(row) < 0 then -Signed(row) else 0
  {
    assert [row][..0] == [];
  }

  lemma DebitOfEffect(c: Call, x: Commit, p: Phone, k: nat)
    requires ShapeOk(x) && TookFrom(c, p, k) && Effect(c, x) && c.req.amount > 0
    ensures Outgoing(Pick(OnPhone(p), Rows(x))) == c.req.amount
  {
    hide Outgoing, Pick, Rows;
    PickRows(OnPhone(p), x);
    if x.One? {
      OutgoingOne(x.row);
      assert Pick(OnPhone(p), Rows(x)) == [x.row];
    } else {
      OutgoingOne(x.debit);
      assert Pick(OnPhone(p), Rows(x)) == [x.debit];
    }
  }

  lemma OwnDebit(log: seq<Commit>, id: nat, c: Call, p: Phone, k: nat)
    requires Sound(log) && c.req.Admitted() && Owned(log, id, c) && TookFrom(c, p, k)
    ensures Outgoing(Pick(OnPhone(p), Rows(log[c.mine.value]))) == c.req.amount
  {
    hide Sound, Effect, RowFits, ShapeOk;
    var j := c.mine.value;
    SoundPrefix(log, j);
    DebitOfEffect(c, log[j], p, k);
  }

  lemma {:induction false} AskedIsSpent(log: seq<Commit>, calls: map<nat, Call>, p: Phone, k: nat, s: set<nat>)
    requires Sound(log) && s <= calls.Keys
    requires forall id :: id in s ==>
               calls[id].req.Admitted() && Owned(log, id, calls[id]) && TookFrom(calls[id], p, k)
    ensures Asked(calls, s) == SpentBy(log, k, p, s)
    decreases |s|
  {
    hide Sound, Outgoing, Pick, Effect;
    if s == {} {
      NothingSpent(log, k, p);
    } else {
      var id :| id in s && Asked(calls, s) == calls[id].req.amount + Asked(calls, s - {id});
      AskedIsSpent(log, calls, p, k, s - {id});
      OwnDebit(log, id, calls[id], p, k);
      assert k <= calls[id].mine.value;
      SpentByWithout(log, k, p, s, id, calls[id].mine.value);
    }
  }

  lemma {:induction false} NothingSpent(log: seq<Commit>, k: nat, p: Phone)
    ensures SpentBy(log, k, p, {}) == 0
  {
    if |log| > k {
      NothingSpent(log[..|log| - 1], k, p);
    }
  }

  lemma RequestAdmitted(log: seq<Commit>, c: Call)
    requires Built(log, c)
    ensures c.req.Admitted()
  {
  }

  /** No double spend: from any committed state of the run on, whatever withdrawals and outgoing transfers
      run concurrently, those that succeed take together at most what the phone held then plus everything
      credited to it since. */
  lemma NoDoubleSpend(mode: ReadConcern, events: seq<Event>, p: Phone, k: nat, s: set<nat>)
    requires Run(mode, events) && k <= |State(mode, events).log|
    requires s <= State(mode, events).calls.Keys
    requires forall id :: id in s ==> TookFrom(State(mode, events).calls[id], p, k)
    ensures var log, calls := State(mode, events).log, State(mode, events).calls;
            Asked(calls, s) <= Balance(log[..k], p) + Incoming(Since(log, k, p))
  {
    hide Sound, Where, Outgoing, Incoming, SpentBy, TookFrom, Owned, Built, Truthful;
    RunKeepsInvariant(mode, events);
    var log, calls := State(mode, events).log, State(mode, events).calls;
    forall id | id in s ensures calls[id].req.Admitted() && Owned(log, id, calls[id]) {
      RunCallOk(mode, events, id);
      RequestAdmitted(log, calls[id]);
    }
    AskedIsSpent(log, calls, p, k, s);
    SpentByBounded(log, k, p, s);
    BalanceSince(log, k, p);
  }
}
