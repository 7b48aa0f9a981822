/** Atomicity of transfers as an invariant of the collection. */
module Transfers {
  import opened Model
  import opened Ledger
  import opened Protocol
  import opened Safety

  lemma ShapeAt(log: seq<Commit>, i: nat)
    requires Sound(log) && i < |log|
    ensures ShapeOk(log[i])
  {
    hide Sound, RowFits, ShapeOk;
    SoundPrefix(log, i);
  }

  lemma DebitHasCredit(log: seq<Commit>, s: Row) returns (t: Row)
    requires Sound(log) && s in Where(log, Everything) && IsDebitLeg(s)
    ensures t in Where(log, Everything) && Coupled(s, t)
  {
    hide Sound, Where;
    var i := CommittedBy(log, s);
    ShapeAt(log, i);
    assert log[i].Two? && s == log[i].debit;
    t := log[i].credit;
    RowsCommitted(log, i, t);
  }

  lemma CreditHasDebit(log: seq<Commit>, t: Row) returns (s: Row)
    requires Sound(log) && t in Where(log, Everything) && IsCreditLeg(t)
    ensures s in Where(log, Everything) && Coupled(s, t)
  {
    hide Sound, Where;
    var i := CommittedBy(log, t);
    ShapeAt(log, i);
    assert log[i].Two? && t == log[i].credit;
    s := log[i].debit;
    RowsCommitted(log, i, s);
  }

  /** The sender's row of a posted transfer under key r. */
  predicate DebitUnder(log: seq<Commit>, r: Key) {
    exists s :: s in Where(log, Everything) && IsDebitLeg(s) && s.ref == r
  }

  /** The receiver's row of a posted transfer whose sender row is under key r. */
  predicate CreditUnder(log: seq<Commit>, r: Key) {
    exists t :: t in Where(log, Everything) && IsCreditLeg(t) && t.ref == r + "_deposit"
  }

  lemma LegsTogether(log: seq<Commit>, r: Key)
    requires Sound(log)
    ensures DebitUnder(log, r) <==> CreditUnder(log, r)
  {
    hide Sound, Where;
    if DebitUnder(log, r) {
      var s :| s in Where(log, Everything) && IsDebitLeg(s) && s.ref == r;
      var t := DebitHasCredit(log, s);
    }
    if CreditUnder(log, r) {
      var t :| t in Where(log, Everything) && IsCreditLeg(t) && t.ref == r + "_deposit";
      var s := CreditHasDebit(log, t);
      SuffixInjective(s.ref, r);
    }
  }

  lemma LegsMatch(log: seq<Commit>, s: Row, t: Row)
    requires Sound(log) && s in Where(log, Everything) && t in Where(log, Everything)
    requires IsDebitLeg(s) && IsCreditLeg(t) && t.ref == s.ref + "_deposit"
    ensures Coupled(s, t)
  {
    hide Sound, Where, IsDebitLeg, IsCreditLeg;
    var t' := DebitHasCredit(log, s);
    SameReferenceSameRow(log, t, t');
  }

  lemma RefusalHasNoCredit(log: seq<Commit>, f: Row)
    requires Sound(log) && f in Where(log, Everything) && f.status == Failed
    ensures !CreditUnder(log, f.ref)
  {
    hide Sound, Where;
    if CreditUnder(log, f.ref) {
      LegsTogether(log, f.ref);
      var s :| s in Where(log, Everything) && IsDebitLeg(s) && s.ref == f.ref;
      SameReferenceSameRow(log, s, f);
    }
  }

  /** In every reachable state and for every key r: the sender's POSTED transfer row under r is there if and
      only if a receiver row under r + "_deposit" is; the two then carry the same amount and parties; and
      if a FAILED row holds r, no receiver row under r + "_deposit" exists. The keys are arbitrary, so this
      includes clients whose own keys end in "_deposit". */
  lemma TransferIsAtomic(mode: ReadConcern, events: seq<Event>, r: Key)
    requires Run(mode, events)
    ensures var log := State(mode, events).log;
            var rows := Where(log, Everything);
            && (DebitUnder(log, r) <==> CreditUnder(log, r))
            && (forall s, t | s in rows && t in rows && IsDebitLeg(s) && IsCreditLeg(t) ::
                  s.ref == r && t.ref == r + "_deposit" ==> Coupled(s, t))
            && (forall f | f in rows && f.status == Failed && f.ref == r :: !CreditUnder(log, r))
  {
    hide Sound, Where, IsDebitLeg, IsCreditLeg, Coupled, Inv, CreditUnder, DebitUnder;
    RunIsSound(mode, events);
    var log := State(mode, events).log;
    var rows := Where(log, Everything);
    LegsTogether(log, r);
    forall s, t | s in rows && t in rows && IsDebitLeg(s) && IsCreditLeg(t)
      ensures s.ref == r && t.ref == r + "_deposit" ==> Coupled(s, t)
    {
      if s.ref == r && t.ref == r + "_deposit" {
        LegsMatch(log, s, t);
      }
    }
    forall f | f in rows && f.status == Failed && f.ref == r
      ensures !CreditUnder(log, r)
    {
      RefusalHasNoCredit(log, f);
    }
  }
}
