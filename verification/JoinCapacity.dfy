/** How far joins and returns can push a queue past maxSize. */
module JoinCapacity {
  import opened QueueTypes
  import opened Database
  import opened SetFacts
  import opened Interleaving
  import opened SlotSafety

  /** A join that has passed its maxSize check and has not ended. */
  predicate PastCheck(tx: Tx) {
    tx.kind.Join? && !tx.pc.Admitting?
  }

  function JoinsPastCheck(s: Sys): set<TxId> {
    set t | t in s.txs && PastCheck(s.txs[t])
  }

  // ----- which steps let someone in -----------------------------------------

  /** A first join, or a REJOIN that was read from MISSED or CANCELLED. */
  predicate Enters(w: Write) {
    w.Insert? || (w.event.Rejoin? && (w.qu.status.Missed? || w.qu.status.Cancelled?))
  }

  predicate LetsIn(s: Sys, a: Action) {
    && Commits(s, a)
    && (s.txs[a.t].kind.Join? || s.txs[a.t].kind.Request?)
    && |s.txs[a.t].writes| == 1
    && Enters(s.txs[a.t].writes[0])
  }

  lemma WriteActive(db: Db, w: Write)
    requires Lands(db, w)
    ensures Enters(w) ==> w.user !in Active(db.rows) && Active(Apply(db, w).rows) == Active(db.rows) + {w.user}
    ensures !Enters(w) ==> Active(Apply(db, w).rows) <= Active(db.rows)
  {
  }

  lemma PromoteActive(db: Db, tx: Tx)
    requires TxOk(db, tx) && tx.kind.Promote?
    ensures Active(ApplyAll(db, tx.writes).rows) <= Active(db.rows)
  {
    ApplyAllRows(db, tx.writes);
    forall u | u in Active(ApplyAll(db, tx.writes).rows) ensures u in Active(db.rows) {
      if u in WriteUsers(tx.writes) { ServedUser(db, tx.writes, u); }
    }
  }

  /** A step adds an active row if and only if it commits a join, or a rejoin or arrived call,
      whose write is a first join or a REJOIN of a row that was MISSED or CANCELLED. It adds one. */
  lemma ActiveGrowsExactly(s: Sys, a: Action)
    requires SysOk(s) && CanStep(s, a)
    ensures |Active(Do(s, a).db.rows)| > |Active(s.db.rows)| <==> LetsIn(s, a)
    ensures LetsIn(s, a) ==>
              && s.txs[a.t].writes[0].user !in Active(s.db.rows)
              && Active(Do(s, a).db.rows) == Active(s.db.rows) + {s.txs[a.t].writes[0].user}
  {
    OnlyCommitsChangeTables(s, a);
    if Commits(s, a) {
      var tx := s.txs[a.t];
      assert TxOk(s.db, tx);
      if tx.kind.Promote? {
        PromoteActive(s.db, tx);
        CardLe(Active(Do(s, a).db.rows), Active(s.db.rows));
      } else if !tx.kind.Configure? {
        ApplyOne(s.db, tx.writes);
        WriteActive(s.db, tx.writes[0]);
        if !Enters(tx.writes[0]) { CardLe(Active(Do(s, a).db.rows), Active(s.db.rows)); }
      }
    }
  }

  // ----- when the limit is kept: exactly ------------------------------------

  predicate WithinMaxSize(db: Db) {
    db.maxSize.Some? ==> |Active(db.rows)| <= db.maxSize.value
  }

  /** Someone is let in although every place is taken. */
  predicate Overfills(s: Sys, a: Action) {
    LetsIn(s, a) && s.db.maxSize.Some? && |Active(s.db.rows)| >= s.db.maxSize.value
  }

  /** The settings commit that puts maxSize below the number of active rows. */
  predicate CutsBelowActive(s: Sys, a: Action) {
    && Commits(s, a)
    && s.txs[a.t].kind.Configure?
    && OptionalPositive(s.txs[a.t].kind.maxSize).Some?
    && s.txs[a.t].kind.maxSize.value < |Active(s.db.rows)|
  }

  /** "Active rows never exceed maxSize" survives a step exactly when the step neither lets
      someone into a full queue nor cuts maxSize below the active rows. */
  lemma CapacityKeptExactly(s: Sys, a: Action)
    requires SysOk(s) && CanStep(s, a) && WithinMaxSize(s.db)
    ensures WithinMaxSize(Do(s, a).db) <==> !Overfills(s, a) && !CutsBelowActive(s, a)
  {
    ActiveGrowsExactly(s, a);
    OnlyCommitsChangeTables(s, a);
    if Commits(s, a) && !s.txs[a.t].kind.Configure? { SettingsStay(s, a.t); }
  }

  lemma SettingsStay(s: Sys, t: TxId)
    requires SysOk(s) && t in s.txs && s.txs[t].pc.Finishing? && !s.txs[t].kind.Configure?
    ensures Commit(s, t).db.maxSize == s.db.maxSize
  {
    CommitServing(s, t);
  }

  predicate Breaks(s: Sys, a: Action) {
    Overfills(s, a) || CutsBelowActive(s, a)
  }

  /** So it holds throughout a run exactly when it holds at the start and no step is one of those. */
  lemma CapacityOverRunExactly(run: seq<Sys>, acts: seq<Action>)
    requires IsRun(run, acts) && SysOk(run[0])
    ensures (forall i :: 0 <= i < |run| ==> WithinMaxSize(run[i].db))
       <==> WithinMaxSize(run[0].db) && forall i :: 0 <= i < |acts| ==> !Breaks(run[i], acts[i])
  {
    RunKeepsSysOk(run, acts);
    if forall i :: 0 <= i < |run| ==> WithinMaxSize(run[i].db) {
      forall i | 0 <= i < |acts| ensures !Breaks(run[i], acts[i]) {
        assert WithinMaxSize(run[i].db) && WithinMaxSize(run[i + 1].db);
        CapacityKeptExactly(run[i], acts[i]);
      }
    }
    if WithinMaxSize(run[0].db) && forall i :: 0 <= i < |acts| ==> !Breaks(run[i], acts[i]) {
      forall i | 0 <= i < |run| ensures WithinMaxSize(run[i].db) {
        StaysWithin(run, acts, i);
      }
    }
  }

  lemma {:induction false} StaysWithin(run: seq<Sys>, acts: seq<Action>, i: nat)
    requires IsRun(run, acts) && (forall j :: 0 <= j < |run| ==> SysOk(run[j]))
    requires WithinMaxSize(run[0].db) && forall j :: 0 <= j < |acts| ==> !Breaks(run[j], acts[j])
    requires i < |run|
    ensures WithinMaxSize(run[i].db)
  {
    if i > 0 {
      StaysWithin(run, acts, i - 1);
      CapacityKeptExactly(run[i - 1], acts[i - 1]);
    }
  }

  // ----- the joins under way ------------------------------------------------

  /** How one step changes the joins past their check. */
  lemma PastCheckStep(s: Sys, a: Action)
    requires SysOk(s) && CanStep(s, a)
    ensures JoinsPastCheck(Do(s, a)) <= JoinsPastCheck(s) + (if Admits(s, a) then {a.t} else {})
    ensures Commits(s, a) && s.txs[a.t].kind.Join? ==>
              |JoinsPastCheck(Do(s, a))| <= |JoinsPastCheck(s)| - 1
  {
    if a.Statement? {
      assert TxOk(s.db, s.txs[a.t]);
      if Commits(s, a) {
        EndPastCheck(s, a.t, Do(s, a));
      } else if s.txs[a.t].pc.Admitting? {
        StatementTouches(s, a.t, a.choice);
        PastCheckFrame(s, a.t, Do(s, a));
        AdmitStep(s, a.t, a.choice);
      } else {
        StatementTouches(s, a.t, a.choice);
        PastCheckFrame(s, a.t, Do(s, a));
      }
    }
  }

  lemma EndPastCheck(s: Sys, t: TxId, s': Sys)
    requires t in s.txs && s'.txs == s.txs - {t}
    ensures JoinsPastCheck(s') == JoinsPastCheck(s) - {t}
    ensures PastCheck(s.txs[t]) ==> |JoinsPastCheck(s')| == |JoinsPastCheck(s)| - 1
  {
    assert JoinsPastCheck(s') == JoinsPastCheck(s) - {t};
    assert PastCheck(s.txs[t]) <==> t in JoinsPastCheck(s);
  }

  lemma PastCheckFrame(s: Sys, t: TxId, s': Sys)
    requires t in s.txs && StatementFrame(s, t, s')
    ensures JoinsPastCheck(s') <= JoinsPastCheck(s) + {t}
    ensures t !in s'.txs ==> JoinsPastCheck(s') <= JoinsPastCheck(s) - {t}
    ensures t in s'.txs && s.txs[t].kind.Join? && !s.txs[t].pc.Admitting? ==> t in JoinsPastCheck(s)
    ensures t in s'.txs && !s.txs[t].kind.Join? ==> t !in JoinsPastCheck(s')
  {
  }

  lemma AdmitStep(s: Sys, t: TxId, choice: UserId)
    requires SysOk(s) && t in s.txs && s.txs[t].pc.Admitting?
    ensures !Admits(s, Statement(t, choice)) ==> t !in DoStatement(s, t, choice).txs
  {
    assert TxOk(s.db, s.txs[t]);
    assert View(s.db, s.txs[t]) == s.db;
  }

  /** A join passes its maxSize check in this step. */
  predicate Admits(s: Sys, a: Action) {
    && a.Statement? && a.t in s.txs && s.txs[a.t].pc.Admitting?
    && (s.db.maxSize.Some? ==> |Active(s.db.rows)| < s.db.maxSize.value)
  }

  // ----- the bound ----------------------------------------------------------

  /** A rejoin or arrived call lets someone in; it checks no maxSize. */
  predicate ReturnsUnchecked(s: Sys, a: Action) {
    LetsIn(s, a) && s.txs[a.t].kind.Request?
  }

  function UncheckedReturns(run: seq<Sys>, acts: seq<Action>): nat {
    if acts == [] || |run| != |acts| + 1 then 0
    else
      UncheckedReturns(run[..|run| - 1], acts[..|acts| - 1])
      + if ReturnsUnchecked(run[|acts| - 1], acts[|acts| - 1]) then 1 else 0
  }

  /** The active rows, and the places that joins past their check are about to take. */
  function Claims(s: Sys): nat {
    |Active(s.db.rows)| + |JoinsPastCheck(s)|
  }

  lemma ClaimsStep(s: Sys, a: Action, m: int, c: nat)
    requires SysOk(s) && CanStep(s, a)
    requires s.db.maxSize.Some? && s.db.maxSize.value <= m && |JoinsPastCheck(Do(s, a))| <= c
    ensures Claims(Do(s, a)) <= m - 1 + c
         || Claims(Do(s, a)) <= Claims(s) + if ReturnsUnchecked(s, a) then 1 else 0
  {
    ActiveGrowsExactly(s, a);
    PastCheckStep(s, a);
    OnlyCommitsChangeTables(s, a);
    if !Admits(s, a) { CardLe(JoinsPastCheck(Do(s, a)), JoinsPastCheck(s)); }
  }

  /** While maxSize is set and at most m, with at most c joins between their check and their
      commit: the active rows pass maxSize - 1 + c, or what they were at the start if that is
      more, by no more than the rejoin and arrived calls that brought back a MISSED or CANCELLED
      user. Without such calls, joins one at a time stay within maxSize. */
  lemma {:induction false} CapacityOverRun(run: seq<Sys>, acts: seq<Action>, m: int, c: nat)
    requires IsRun(run, acts) && SysOk(run[0])
    requires forall i :: 0 <= i < |run| ==> run[i].db.maxSize.Some? && run[i].db.maxSize.value <= m
    requires forall i :: 0 <= i < |run| ==> |JoinsPastCheck(run[i])| <= c
    ensures Claims(run[|acts|])
         <= (if Claims(run[0]) > m - 1 + c then Claims(run[0]) else m - 1 + c) + UncheckedReturns(run, acts)
  {
    if acts != [] {
      var n := |acts| - 1;
      PrefixRun(run, acts);
      CapacityOverRun(run[..|run| - 1], acts[..n], m, c);
      RunKeepsSysOk(run, acts);
      assert run[..|run| - 1][n] == run[n];
      assert |JoinsPastCheck(run[n + 1])| <= c;
      ClaimsStep(run[n], acts[n], m, c);
    }
  }
}
