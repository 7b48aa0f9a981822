/** The formulas of the isolation tests, for any number of concurrent calls on one phone. */
module Races {
  import opened Model
  import opened Ledger
  import opened Protocol
  import opened Safety
  import opened Money
  import opened Spending

  predicate OnRow(c: Commit, p: Phone) {
    exists r :: r in Rows(c) && r.phone == p
  }

  /** The calls that committed a row on the phone after the first k commits. */
  function Authors(log: seq<Commit>, k: nat, p: Phone): set<nat> {
    if |log| <= k then {}
    else
      var c := log[|log| - 1];
      Authors(log[..|log| - 1], k, p) + if OnRow(c, p) then {c.author} else {}
  }

  lemma {:induction false} AuthorsIff(log: seq<Commit>, k: nat, p: Phone, id: nat)
    ensures id in Authors(log, k, p) <==> exists j :: k <= j < |log| && log[j].author == id && OnRow(log[j], p)
  {
    if |log| > k {
      hide OnRow;
      var shorter := log[..|log| - 1];
      AuthorsIff(shorter, k, p, id);
      assert forall j :: 0 <= j < |shorter| ==> shorter[j] == log[j];
    }
  }

  predicate DistinctAuthors(log: seq<Commit>) {
    forall i, j :: 0 <= i < j < |log| ==> log[i].author != log[j].author
  }

  lemma RunHasDistinctAuthors(mode: ReadConcern, events: seq<Event>)
    requires Run(mode, events)
    ensures DistinctAuthors(State(mode, events).log)
  {
    hide Sound, Built, Truthful, Effect, State, Run;
    RunKeepsInvariant(mode, events);
    var s := State(mode, events);
    forall i, j | 0 <= i < j < |s.log| ensures s.log[i].author != s.log[j].author {
      assert CallOk(mode, s.log, s.log[j].author, s.calls[s.log[j].author]);
    }
  }

  lemma PickWhenOnRow(c: Commit, p: Phone)
    requires ShapeOk(c)
    ensures |Pick(OnPhone(p), Rows(c))| == if OnRow(c, p) then 1 else 0
  {
    PickRows(OnPhone(p), c);
    if c.One? {
      assert c.row in Rows(c);
    } else {
      assert c.debit in Rows(c) && c.credit in Rows(c);
    }
  }

  /** As many calls as rows. */
  lemma {:induction false} AuthorsCount(log: seq<Commit>, k: nat, p: Phone)
    requires Sound(log) && DistinctAuthors(log) && k <= |log|
    ensures |Authors(log, k, p)| == |Since(log, k, p)|
  {
    if k < |log| {
      hide OnRow, Pick, Since, ShapeOk, RowFits;
      var shorter, c := log[..|log| - 1], log[|log| - 1];
      AuthorsCount(shorter, k, p);
      assert shorter + [c] == log;
      SinceAppend(shorter, k, p, c);
      PickWhenOnRow(c, p);
      AuthorsIff(shorter, k, p, c.author);
      assert c.author !in Authors(shorter, k, p);
    } else {
      NothingSince(log, p);
    }
  }

  lemma NothingSince(log: seq<Commit>, p: Phone)
    ensures Since(log, |log|, p) == []
  {
    assert log[..|log|] == log;
  }

  /** Where a committed row stands in its phone's chain. */
  lemma RowPosition(log: seq<Commit>, j: nat, r: Row)
    requires Sound(log) && j < |log| && r in Rows(log[j])
    ensures var q, rows := |Where(log[..j], OnPhone(r.phone))|, Where(log, OnPhone(r.phone));
            q < |rows| && rows[q] == r && |Where(log[..j + 1], OnPhone(r.phone))| == q + 1
  {
    hide Sound, Where, ShapeOk, RowFits, Pick;
    SoundPrefix(log, j);
    PickOnPhone(log[j], r.phone);
    PickRows(OnPhone(r.phone), log[j]);
    WhereAppend(log[..j], log[j], OnPhone(r.phone));
    assert log[..j] + [log[j]] == log[..j + 1];
    WherePrefix(log, j + 1, OnPhone(r.phone));
    assert r in Pick(OnPhone(r.phone), Rows(log[j]));
  }

  lemma {:induction false} EqualMoves(rows: seq<Row>, k: nat, m: nat, a: int)
    requires ChainOk(rows) && k <= m <= |rows|
    requires forall i :: k <= i < m ==> Signed(rows[i]) == a
    ensures Projected(rows[..m]) == Projected(rows[..k]) + (m - k) * a
  {
    if k < m {
      EqualMoves(rows, k, m - 1, a);
      assert Linked(rows, m - 1);
      LinkMoves(rows, m - 1);
      assert (m - k) * a == (m - 1 - k) * a + a;
    }
  }

  function AnsweredBalance(c: Call): int
    requires c.at.Done? && !c.at.answer.Failure?
  {
    if c.at.answer.WalletResponse? then c.at.answer.balance else c.at.answer.balanceAfter
  }

  /** The row a call commits on its owner's phone carries the balance it answers. */
  lemma OwnerRowOf(c: Call, x: Commit) returns (r: Row)
    requires c.at.Done? && ShapeOk(x) && Effect(c, x)
    ensures r in Rows(x) && r.phone == c.req.Owner()
    ensures c.at.answer.Failure? ==> Signed(r) == 0
    ensures !c.at.answer.Failure? ==> AnsweredBalance(c) == r.after
  {
    r := if x.One? then x.row else x.debit;
  }

  /** Every row of the phone after the first k commits moves the same non-zero amount. */
  predicate AllMove(log: seq<Commit>, k: nat, p: Phone, a: int)
    requires k <= |log|
  {
    a != 0 && forall r :: r in Since(log, k, p) ==> Signed(r) == a
  }

  /** The phone's balance right after the q-th of those rows. */
  lemma BalanceAt(log: seq<Commit>, k: nat, p: Phone, a: int, q: nat)
    requires Sound(log) && k <= |log| && AllMove(log, k, p, a)
    requires |Where(log[..k], OnPhone(p))| <= q <= |Where(log, OnPhone(p))|
    ensures Projected(Where(log, OnPhone(p))[..q])
         == Balance(log[..k], p) + (q - |Where(log[..k], OnPhone(p))|) * a
  {
    hide Where, Newest, Sound, ChainOk, Signed, Projected;
    var rows, k0 := Where(log, OnPhone(p)), |Where(log[..k], OnPhone(p))|;
    ChainInvariant(log, p);
    WherePrefix(log, k, OnPhone(p));
    forall i | k0 <= i < q ensures Signed(rows[i]) == a {
      assert Since(log, k, p)[i - k0] == rows[i];
    }
    EqualMoves(rows, k0, q, a);
    SoundPrefix(log, k);
    BalanceIsLast(log[..k], p);
    assert rows[..k0] == Where(log[..k], OnPhone(p));
  }

  /** A fresh call on the phone answers the balance after its own row. */
  lemma AnsweredAt(log: seq<Commit>, k: nat, p: Phone, a: int, id: nat, c: Call, j: nat) returns (q: nat)
    requires Sound(log) && k <= j < |log| && log[j].author == id && OnRow(log[j], p)
    requires AllMove(log, k, p, a) && Owned(log, id, c) && c.req.Owner() == p
    ensures c.at.Done? && !c.at.answer.Failure?
    ensures |Where(log[..k], OnPhone(p))| < q <= |Where(log, OnPhone(p))|
    ensures q == |Where(log[..j + 1], OnPhone(p))|
    ensures AnsweredBalance(c) == Projected(Where(log, OnPhone(p))[..q])
  {
    hide Where, Newest, Sound, Signed, Effect, ShapeOk, RowFits;
    SoundPrefix(log, j);
    var r := OwnerRowOf(c, log[j]);
    RowPosition(log, j, r);
    q := |Where(log[..j], OnPhone(p))| + 1;
    assert log[..j][..k] == log[..k];
    WherePrefix(log[..j], k, OnPhone(p));
    WherePrefix(log, k, OnPhone(p));
    var rows, k0 := Where(log, OnPhone(p)), |Where(log[..k], OnPhone(p))|;
    assert Since(log, k, p)[q - 1 - k0] == rows[q - 1] == r;
  }

  /** The call that committed the phone's last row. */
  lemma LastAuthor(log: seq<Commit>, k: nat, p: Phone) returns (j: nat)
    requires Sound(log) && k <= |log| && Since(log, k, p) != []
    ensures k <= j < |log| && OnRow(log[j], p)
    ensures |Where(log[..j + 1], OnPhone(p))| == |Where(log, OnPhone(p))|
  {
    hide Where, Newest, Sound;
    var rows := Where(log, OnPhone(p));
    WherePrefix(log, k, OnPhone(p));
    var r := rows[|rows| - 1];
    assert r in rows;
    WhereHits(log, OnPhone(p), r);
    j := CommittedBy(log, r);
    RowPosition(log, j, r);
    ChainInvariant(log, p);
    var q := |Where(log[..j], OnPhone(p))|;
    assert Linked(rows, q) && Linked(rows, |rows| - 1);
    if j < k {
      assert log[..k][..j + 1] == log[..j + 1];
      WherePrefix(log[..k], j + 1, OnPhone(p));
    }
  }

  lemma Scale(m: int, n: int, a: int)
    requires m <= n
    ensures a > 0 ==> m * a <= n * a
    ensures a < 0 ==> m * a >= n * a
  {
  }

  /** The answer of a fresh call is never beyond baseline + n * a. */
  predicate WithinBaseline(c: Call, baseline: int, n: int, a: int) {
    && c.at.Done? && !c.at.answer.Failure?
    && (a > 0 ==> AnsweredBalance(c) <= baseline + n * a)
    && (a < 0 ==> AnsweredBalance(c) >= baseline + n * a)
  }

  lemma EachWithinBaseline(log: seq<Commit>, k: nat, p: Phone, a: int, id: nat, c: Call)
    requires Sound(log) && k <= |log| && AllMove(log, k, p, a)
    requires id in Authors(log, k, p) && Owned(log, id, c) && c.req.Owner() == p
    ensures WithinBaseline(c, Balance(log[..k], p), |Since(log, k, p)|, a)
  {
    hide Where, Newest, Sound, Owned, AllMove, OnRow, Authors, Balance;
    AuthorsIff(log, k, p, id);
    var j :| k <= j < |log| && log[j].author == id && OnRow(log[j], p);
    var q := AnsweredAt(log, k, p, a, id, c, j);
    BalanceAt(log, k, p, a, q);
    WherePrefix(log, k, OnPhone(p));
    Scale(q - |Where(log[..k], OnPhone(p))|, |Since(log, k, p)|, a);
  }

  lemma LastReachesBaseline(log: seq<Commit>, k: nat, p: Phone, a: int, calls: map<nat, Call>) returns (id: nat)
    requires Sound(log) && k <= |log| && AllMove(log, k, p, a) && Since(log, k, p) != []
    requires forall id :: id in Authors(log, k, p) ==>
               id in calls && Owned(log, id, calls[id]) && calls[id].req.Owner() == p
    ensures id in Authors(log, k, p) && calls[id].at.Done? && !calls[id].at.answer.Failure?
    ensures AnsweredBalance(calls[id]) == Balance(log[..k], p) + |Since(log, k, p)| * a
  {
    hide Where, Newest, Sound, Owned, AllMove, OnRow, Authors, Balance;
    var j := LastAuthor(log, k, p);
    id := log[j].author;
    AuthorsIff(log, k, p, id);
    var q := AnsweredAt(log, k, p, a, id, calls[id], j);
    BalanceAt(log, k, p, a, q);
    WherePrefix(log, k, OnPhone(p));
  }

  /** From the committed state after k commits on, let all rows of the phone move the same amount a in the
      same direction (deposits of a, or withdrawals and outgoing transfers of -a), and let n be the number of
      calls that committed them. Then the balance is baseline + n * a, no fresh call answers a balance beyond
      it, and one of them answers exactly it: max (or min) of the answers = baseline + successes * amount. */
  lemma ExtremeAnswerFormula(mode: ReadConcern, events: seq<Event>, p: Phone, k: nat, a: int)
    requires Run(mode, events) && k <= |State(mode, events).log|
    requires AllMove(State(mode, events).log, k, p, a)
    requires forall id :: id in Authors(State(mode, events).log, k, p) && id in State(mode, events).calls ==>
               State(mode, events).calls[id].req.Owner() == p
    ensures var log, calls := State(mode, events).log, State(mode, events).calls;
            var authors, baseline := Authors(log, k, p), Balance(log[..k], p);
            && authors <= calls.Keys
            && Balance(log, p) == baseline + |authors| * a
            && (forall id :: id in authors ==> WithinBaseline(calls[id], baseline, |authors|, a))
            && (authors != {} ==>
                  exists id :: id in authors && calls[id].at.Done? && !calls[id].at.answer.Failure?
                               && AnsweredBalance(calls[id]) == baseline + |authors| * a)
  {
    hide Where, Newest, Sound, Owned, AllMove, OnRow, Authors, Balance, WithinBaseline, Built, Truthful, Run, State,
      Since;
    RunKeepsInvariant(mode, events);
    var log, calls := State(mode, events).log, State(mode, events).calls;
    forall id | id in Authors(log, k, p)
      ensures id in calls && Owned(log, id, calls[id])
    {
      AuthorsIff(log, k, p, id);
      assert id in calls;
      assert CallOk(mode, log, id, calls[id]);
    }
    RunHasDistinctAuthors(mode, events);
    AuthorsCount(log, k, p);
    BalanceAfterAll(log, k, p, a);
    forall id | id in Authors(log, k, p)
      ensures WithinBaseline(calls[id], Balance(log[..k], p), |Since(log, k, p)|, a)
    {
      EachWithinBaseline(log, k, p, a, id, calls[id]);
    }
    if Authors(log, k, p) != {} {
      var id := LastReachesBaseline(log, k, p, a, calls);
    }
  }

  lemma BalanceAfterAll(log: seq<Commit>, k: nat, p: Phone, a: int)
    requires Sound(log) && k <= |log| && AllMove(log, k, p, a)
    ensures Balance(log, p) == Balance(log[..k], p) + |Since(log, k, p)| * a
  {
    hide Where, Newest, Sound, AllMove;
    var rows := Where(log, OnPhone(p));
    WherePrefix(log, k, OnPhone(p));
    BalanceAt(log, k, p, a, |rows|);
    assert rows[..|rows|] == rows;
    BalanceIsLast(log, p);
  }

  /* ---------- The race for the full balance ---------- */

  /** A withdrawal of the whole baseline that began after k commits and was answered, neither from a stored
      row nor with the retry limit nor with a driver error. */
  predicate Racer(c: Call, p: Phone, k: nat, baseline: int) {
    && c.req.WithdrawalRequest? && c.req.phone == p && c.req.amount == baseline && k <= c.start
    && c.at.Done?
    && (c.mine.Some? ||
        (c.at.answer.Failure? && c.at.answer.error != ErrHighFrequencyTransaction && c.at.answer.error != ErrOther))
  }

  lemma OneWinnerAtMost(log: seq<Commit>, k: nat, p: Phone, baseline: int)
    requires Sound(log) && k <= |log| && Balance(log[..k], p) == baseline
    requires AllMove(log, k, p, -baseline) && baseline > 0
    ensures |Since(log, k, p)| <= 1
  {
    hide Where, Newest, Sound, AllMove;
    BalanceAfterAll(log, k, p, -baseline);
    ChainInvariant(log, p);
    var n := |Since(log, k, p)|;
    if n >= 2 {
      Scale(2, n, -baseline);
    }
  }

  lemma BalanceUnmoved(log: seq<Commit>, k: nat, t: nat, p: Phone)
    requires k <= t <= |log| && Since(log, k, p) == []
    ensures Balance(log[..t], p) == Balance(log[..k], p)
  {
    hide Where, Newest;
    assert log[..t][..k] == log[..k];
    WherePrefix(log[..t], k, OnPhone(p));
    WherePrefix(log, t, OnPhone(p));
    WherePrefix(log, k, OnPhone(p));
    assert Where(log[..t], OnPhone(p)) == Where(log[..k], OnPhone(p));
  }

  /** A racer's EarlyCheck saw history, since the baseline is not empty. */
  lemma RacerSawHistory(log: seq<Commit>, k: nat, p: Phone, c: Call)
    requires k <= c.start <= |log| && c.req.Owner() == p && Balance(log[..k], p) > 0
    ensures !NoHistory(log, c)
  {
    hide Where;
    assert log[..c.start][..k] == log[..k];
    WherePrefix(log[..c.start], k, OnPhone(p));
  }

  /** Without a row on the phone, no later read can find the balance short. */
  lemma NoLoserAlone(mode: ReadConcern, log: seq<Commit>, k: nat, p: Phone, id: nat, c: Call)
    requires mode != AnyCommitted && Sound(log) && k <= |log| && Since(log, k, p) == []
    requires CallOk(mode, log, id, c) && Racer(c, p, k, Balance(log[..k], p)) && Balance(log[..k], p) > 0
    ensures c.mine.Some?
  {
    hide Where, Newest, Sound, NoHistory;
    RacerSawHistory(log, k, p, c);
    if k <= c.seen <= |log| {
      BalanceUnmoved(log, k, c.seen, p);
    }
  }

  lemma RacerCommitsOnPhone(log: seq<Commit>, id: nat, c: Call, p: Phone, k: nat, baseline: int)
    requires Owned(log, id, c) && Racer(c, p, k, baseline)
    ensures c.mine.Some? ==> id in Authors(log, k, p) && !c.at.answer.Failure?
    ensures id in Authors(log, k, p) ==> c.mine.Some?
    ensures c.mine.None? ==> c.at.answer.Failure?
  {
    hide Authors;
    AuthorsIff(log, k, p, id);
    if c.mine.Some? {
      var x := log[c.mine.value];
      assert x.row in Rows(x);
      assert OnRow(x, p);
    }
  }

  lemma OneElement(s: set<nat>, x: nat, y: nat)
    requires x in s && y in s && |s| <= 1
    ensures x == y
  {
    var rest := s - {x};
    assert |rest| == |s| - 1;
    assert rest == {};
  }

  /** Exactly one full-balance withdrawal wins: let any number of withdrawals of the whole balance race from
      the state after k commits, with reads no older than each call's EarlyCheck, and let nobody else touch
      the phone. When all have answered and none met the retry limit, exactly one committed, it answers
      balance 0, and every other one answers ErrInsufficientBalance. */
  lemma ExactlyOneWins(mode: ReadConcern, events: seq<Event>, p: Phone, k: nat, race: set<nat>) returns (winner: nat)
    requires mode != AnyCommitted && Run(mode, events) && k <= |State(mode, events).log|
    requires Balance(State(mode, events).log[..k], p) > 0
    requires race != {} && race <= State(mode, events).calls.Keys
    requires Authors(State(mode, events).log, k, p) <= race
    requires forall id :: id in race ==>
               Racer(State(mode, events).calls[id], p, k, Balance(State(mode, events).log[..k], p))
    ensures winner in race
    ensures var c := State(mode, events).calls[winner];
            c.mine.Some? && c.at.Done? && !c.at.answer.Failure? && AnsweredBalance(c) == 0
    ensures forall id :: id in race && id != winner ==>
              State(mode, events).calls[id].at == Done(Failure(ErrInsufficientBalance))
  {
    hide Where, Newest, Sound, Owned, OnRow, Authors, Balance, Racer, Built, Truthful, Run, State, Since, AllMove;
    RunKeepsInvariant(mode, events);
    var log, calls := State(mode, events).log, State(mode, events).calls;
    var baseline := Balance(log[..k], p);
    forall id | id in race
      ensures CallOk(mode, log, id, calls[id])
      ensures id in Authors(log, k, p) <==> calls[id].mine.Some?
    {
      assert CallOk(mode, log, id, calls[id]);
      RacerCommitsOnPhone(log, id, calls[id], p, k, baseline);
    }
    RacersMove(log, calls, k, p, race);
    OneWinnerAtMost(log, k, p, baseline);
    RunHasDistinctAuthors(mode, events);
    AuthorsCount(log, k, p);
    if Since(log, k, p) == [] {
      var any :| any in race;
      NoLoserAlone(mode, log, k, p, any, calls[any]);
    }
    winner :| winner in Authors(log, k, p);
    BalanceAfterAll(log, k, p, -baseline);
    WinnerDrains(log, calls, k, p, race, winner);
    forall id | id in race && id != winner
      ensures calls[id].at == Done(Failure(ErrInsufficientBalance))
    {
      if calls[id].mine.Some? {
        OneElement(Authors(log, k, p), id, winner);
      }
      LoserAnswersInsufficient(mode, log, id, calls[id], p, k, baseline);
    }
  }

  lemma LoserAnswersInsufficient(mode: ReadConcern, log: seq<Commit>, id: nat, c: Call, p: Phone, k: nat, baseline: int)
    requires mode != AnyCommitted && CallOk(mode, log, id, c) && Racer(c, p, k, baseline) && c.mine.None?
    requires k <= |log| && Balance(log[..k], p) > 0
    ensures c.at == Done(Failure(ErrInsufficientBalance))
  {
    hide Owned, Where, Newest, NoHistory, Balance, DraftReady;
    RacerSawHistory(log, k, p, c);
  }

  /** If only racers commit on the phone, every row there since withdraws the whole baseline. */
  lemma RacersMove(log: seq<Commit>, calls: map<nat, Call>, k: nat, p: Phone, race: set<nat>)
    requires Sound(log) && k <= |log| && race <= calls.Keys && Balance(log[..k], p) > 0
    requires Authors(log, k, p) <= race
    requires forall id :: id in race ==> Owned(log, id, calls[id]) && Racer(calls[id], p, k, Balance(log[..k], p))
    ensures AllMove(log, k, p, -Balance(log[..k], p))
  {
    hide Where, Newest, Sound, Owned, Authors, Balance, Racer, Signed;
    forall r | r in Since(log, k, p) ensures Signed(r) == -Balance(log[..k], p) {
      var j := AuthorOfSince(log, k, p, r);
      var id := log[j].author;
      AuthorsIff(log, k, p, id);
      RacerRow(log, id, calls[id], p, k, Balance(log[..k], p), j, r);
    }
  }

  lemma RacerRow(log: seq<Commit>, id: nat, c: Call, p: Phone, k: nat, baseline: int, j: nat, r: Row)
    requires Owned(log, id, c) && Racer(c, p, k, baseline)
    requires j < |log| && log[j].author == id && r in Rows(log[j])
    ensures Signed(r) == -baseline && r.phone == p
  {
  }

  lemma AuthorOfSince(log: seq<Commit>, k: nat, p: Phone, r: Row) returns (j: nat)
    requires Sound(log) && k <= |log| && r in Since(log, k, p)
    ensures k <= j < |log| && r in Rows(log[j]) && r.phone == p && OnRow(log[j], p)
  {
    hide Where, Newest, Sound;
    WherePrefix(log, k, OnPhone(p));
    var rows, k0 := Where(log, OnPhone(p)), |Where(log[..k], OnPhone(p))|;
    var i: nat :| i < |Since(log, k, p)| && Since(log, k, p)[i] == r;
    assert rows[k0 + i] == r;
    WhereHits(log, OnPhone(p), r);
    j := CommittedBy(log, r);
    RowPosition(log, j, r);
    ChainInvariant(log, p);
    assert Linked(rows, |Where(log[..j], OnPhone(p))|) && Linked(rows, k0 + i);
    if j < k {
      assert log[..k][..j + 1] == log[..j + 1];
      WherePrefix(log[..k], j + 1, OnPhone(p));
    }
  }

  lemma WinnerDrains(log: seq<Commit>, calls: map<nat, Call>, k: nat, p: Phone, race: set<nat>, winner: nat)
    requires Sound(log) && k <= |log| && race <= calls.Keys && Balance(log[..k], p) > 0
    requires Authors(log, k, p) <= race && winner in Authors(log, k, p) && |Since(log, k, p)| == 1
    requires AllMove(log, k, p, -Balance(log[..k], p))
    requires forall id :: id in race ==> Owned(log, id, calls[id]) && Racer(calls[id], p, k, Balance(log[..k], p))
    requires |Authors(log, k, p)| == 1
    ensures calls[winner].at.Done? && !calls[winner].at.answer.Failure? && AnsweredBalance(calls[winner]) == 0
  {
    hide Where, Newest, Sound, Owned, Authors, Balance, AllMove, Since;
    var id := LastReachesBaseline(log, k, p, -Balance(log[..k], p), calls);
    OneElement(Authors(log, k, p), id, winner);
  }
}
