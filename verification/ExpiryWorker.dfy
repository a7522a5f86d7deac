/** What a worker job achieves under interleaving. */
module ExpiryWorker {
  import opened QueueTypes
  import opened Database
  import opened Interleaving
  import opened SlotSafety
  import opened ExpiryRaces

  /** The transaction t is a worker job for u. */
  predicate WorksOn(s: Sys, t: TxId, u: UserId) {
    t in s.txs && s.txs[t].kind == Expire(u)
  }

  predicate IsOverdue(s: Sys, u: UserId) {
    Overdue(s.db.rows, u, s.clock)
  }

  /** A row that is LATE cannot be marked late. */
  lemma LateIsNotMarked(s: Sys, a: Action, u: UserId)
    requires SysOk(s) && CanStep(s, a) && IsLate(s, u)
    ensures !MarksLate(s, a, u)
  {
    if Commits(s, a) {
      var tx := s.txs[a.t];
      assert TxOk(s.db, tx);
      assert |tx.writes| == 1 ==> Lands(s.db, tx.writes[0]);
    }
  }

  lemma OverdueStep(s: Sys, a: Action, u: UserId)
    requires SysOk(s) && CanStep(s, a) && IsOverdue(s, u) && IsLate(Do(s, a), u)
    ensures IsOverdue(Do(s, a), u)
  {
    LateIsNotMarked(s, a, u);
    LateRowStep(s, a, u);
  }

  /** A job that comes to its end on an overdue row has struck it: its look, its read and its
      guard all pass. */
  lemma JobStrikes(s: Sys, t: TxId, choice: UserId, u: UserId)
    requires SysOk(s) && WorksOn(s, t, u) && IsOverdue(s, u)
    requires t !in DoStatement(s, t, choice).txs
    ensures !IsLate(DoStatement(s, t, choice), u)
  {
    var tx := s.txs[t];
    assert TxOk(s.db, tx);
    if tx.pc.Finishing? {
      assert Lands(s.db, tx.writes[0]);
      ApplyOne(s.db, tx.writes);
    } else {
      assert View(s.db, tx) == s.db;
    }
  }

  lemma {:induction false} StaysOverdue(run: seq<Sys>, acts: seq<Action>, u: UserId, i: nat)
    requires IsRun(run, acts) && i <= |acts| && IsOverdue(run[0], u)
    requires forall j :: 0 <= j < |run| ==> SysOk(run[j])
    requires forall j :: 0 <= j <= i ==> IsLate(run[j], u)
    ensures IsOverdue(run[i], u)
  {
    if i > 0 {
      StaysOverdue(run, acts, u, i - 1);
      assert run[i] == Do(run[i - 1], acts[i - 1]) && IsLate(run[i], u);
      OverdueStep(run[i - 1], acts[i - 1], u);
    }
  }

  lemma OnlyOwnStepEnds(s: Sys, a: Action, t: TxId)
    requires CanStep(s, a) && t in s.txs && t !in Do(s, a).txs && a != Crash(t)
    ensures a.Statement? && a.t == t
  {
    if a.Statement? { StatementTouches(s, a.t, a.choice); }
  }

  /** A worker job that is under way while its row is overdue, and is not rolled back before its
      end, sees the row leave LATE, by its own strike or by another transaction's. */
  lemma JobClearsLateness(run: seq<Sys>, acts: seq<Action>, t: TxId, u: UserId) returns (i: nat)
    requires IsRun(run, acts) && SysOk(run[0]) && IsOverdue(run[0], u)
    requires forall j :: 0 <= j < |acts| ==> WorksOn(run[j], t, u) && acts[j] != Crash(t)
    requires acts != [] && t !in run[|acts|].txs
    ensures 0 < i <= |acts| && !IsLate(run[i], u)
  {
    RunKeepsSysOk(run, acts);
    var n := |acts| - 1;
    if forall j :: 0 <= j <= n ==> IsLate(run[j], u) {
      StaysOverdue(run, acts, u, n);
      OnlyOwnStepEnds(run[n], acts[n], t);
      JobStrikes(run[n], t, acts[n].choice, u);
      i := n + 1;
    } else {
      i :| 0 <= i <= n && !IsLate(run[i], u);
    }
  }
}
