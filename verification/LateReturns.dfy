/** Returns from LATE under interleaving: when one can come past the deadline. */
module LateReturns {
  import opened QueueTypes
  import opened StateMachine
  import opened Database
  import opened Interleaving
  import opened Runs
  import opened SlotSafety
  import opened History
  import opened ExpiryRaces

  /** The step turns u from LATE to WAITING. */
  predicate Returns(s: Sys, a: Action, u: UserId) {
    && IsLate(s, u)
    && u in Do(s, a).db.rows && Do(s, a).db.rows[u].status.Waiting?
  }

  /** The write rests on the row as it stood in state i, read at that state's clock. */
  predicate ReadAt(s: Sys, w: Write) {
    && w.Change?
    && w.at == s.clock
    && w.user in s.db.rows
    && s.db.rows[w.user] == w.qu
  }

  ghost predicate WasRead(run: seq<Sys>, w: Write) {
    exists i :: 0 <= i < |run| && ReadAt(run[i], w)
  }

  predicate Holds(tx: Tx, w: Write) {
    (tx.pc.Swapping? && tx.pc.write == w) || w in tx.writes
  }

  /** A transaction other than a promoter is about to write the update, or has written it. */
  predicate UpdateUnderWay(s: Sys, t: TxId, w: Write) {
    t in s.txs && !s.txs[t].kind.Promote? && Holds(s.txs[t], w) && w.Change?
  }

  /** Every update under way in s, other than a promoter's, was read from a state of the run. */
  ghost predicate UpdatesWereRead(run: seq<Sys>, s: Sys) {
    forall t, w :: UpdateUnderWay(s, t, w) ==> WasRead(run, w)
  }

  /** A statement begins to hold an update only by reading the row. */
  lemma NewUpdateIsRead(s: Sys, a: Action, t: TxId, w: Write)
    requires SysOk(s) && CanStep(s, a) && UpdateUnderWay(Do(s, a), t, w) && !UpdateUnderWay(s, t, w)
    ensures ReadAt(s, w)
  {
    if a.Statement? {
      StatementTouches(s, a.t, a.choice);
      if a.t == t {
        assert TxOk(s.db, s.txs[t]);
        assert s.txs[t].pc.Finishing? || View(s.db, s.txs[t]) == s.db;
      }
    }
  }

  lemma {:induction false} UpdatesReadOverRun(run: seq<Sys>, acts: seq<Action>)
    requires IsRun(run, acts) && Init(run[0])
    ensures UpdatesWereRead(run, run[|acts|])
  {
    if acts != [] {
      var n := |acts| - 1;
      var front := run[..|run| - 1];
      PrefixRun(run, acts);
      UpdatesReadOverRun(front, acts[..n]);
      RunSound(run, acts);
      assert front[n] == run[n];
      var last := run[n + 1];
      forall t, w | UpdateUnderWay(last, t, w) ensures WasRead(run, w) {
        if UpdateUnderWay(run[n], t, w) {
          assert WasRead(front, w);
          var i :| 0 <= i < |front| && ReadAt(front[i], w);
          assert ReadAt(run[i], w);
        } else {
          NewUpdateIsRead(run[n], acts[n], t, w);
        }
      }
    }
  }

  /** LATE turns WAITING only by the commit of a REJOIN that was in time by its own reading. */
  lemma ReturnIsRejoin(s: Sys, a: Action, u: UserId)
    requires SysOk(s) && CanStep(s, a) && Returns(s, a, u)
    ensures Commits(s, a) && !s.txs[a.t].kind.Promote? && |s.txs[a.t].writes| == 1
    ensures var w := s.txs[a.t].writes[0];
            w.Change? && w.user == u && InTime(w.qu, w.event, w.at)
  {
    OnlyCommitsChangeTables(s, a);
    var tx := s.txs[a.t];
    assert TxOk(s.db, tx);
    if tx.kind.Promote? {
      PromoterTouches(s.db, tx, u);
    } else if !tx.kind.Configure? {
      ApplyOne(s.db, tx.writes);
    }
  }

  // ----- what such a return rests on ----------------------------------------

  /** The transaction is about to write, or has written, a REJOIN of u that it read from LATE in time. */
  predicate HoldsReturn(s: Sys, t: TxId, u: UserId) {
    && t in s.txs && !s.txs[t].kind.Promote?
    && match s.txs[t].pc
       case Swapping(w) => ReturnsBy(w, u)
       case Finishing => |s.txs[t].writes| == 1 && ReturnsBy(s.txs[t].writes[0], u)
       case _ => false
  }

  predicate ReturnsBy(w: Write, u: UserId) {
    w.Change? && w.user == u && InTime(w.qu, w.event, w.at)
  }

  /** The deadline of u's row has gone by. */
  predicate PastDeadline(s: Sys, u: UserId) {
    IsLate(s, u) && s.db.rows[u].expiresAt.Some? && s.db.rows[u].expiresAt.value < s.clock
  }

  /** Past the deadline nobody begins to hold such a REJOIN. */
  lemma NoNewReturn(s: Sys, a: Action, t: TxId, u: UserId)
    requires SysOk(s) && CanStep(s, a) && PastDeadline(s, u) && HoldsReturn(Do(s, a), t, u)
    ensures HoldsReturn(s, t, u)
  {
    if a.Statement? {
      StatementTouches(s, a.t, a.choice);
      if a.t == t {
        var tx := s.txs[t];
        assert TxOk(s.db, tx);
        assert tx.pc.Finishing? || View(s.db, tx) == s.db;
      }
    }
  }

  lemma {:induction false} ReturnReachesBack(run: seq<Sys>, acts: seq<Action>, t: TxId, u: UserId, i: nat, j: nat)
    requires IsRun(run, acts) && SoundRun(run) && i <= j <= |acts|
    requires NoMarkFrom(run, acts, u, i) && PastDeadline(run[i], u) && IsLate(run[|acts|], u)
    requires HoldsReturn(run[|acts|], t, u)
    ensures HoldsReturn(run[j], t, u)
    decreases |acts| - j
  {
    if j < |acts| {
      ReturnReachesBack(run, acts, t, u, i, j + 1);
      StillPastDeadline(run, acts, u, i, j);
      NoNewReturn(run[j], acts[j], t, u);
    }
  }

  lemma StillPastDeadline(run: seq<Sys>, acts: seq<Action>, u: UserId, i: nat, j: nat)
    requires IsRun(run, acts) && SoundRun(run) && i <= j <= |acts|
    requires NoMarkFrom(run, acts, u, i) && PastDeadline(run[i], u) && IsLate(run[|acts|], u)
    ensures PastDeadline(run[j], u)
  {
    UnmarkedRowFixed(run, acts, u, i, i);
    UnmarkedRowFixed(run, acts, u, i, j);
    ClockForward(run, acts, i, j);
  }

  /** In any run from an empty queue that ends with u going from LATE back to WAITING: the
      landing REJOIN was read at some state i of the run, no later than the deadline it saw
      there. With e the deadline that the last MARK_LATE of u stamped: if it was read after that
      MARK_LATE, e is the deadline it saw; and in any case the transaction has held it in every
      state since then whose clock is past e. */
  lemma ReturnWasInTime(run: seq<Sys>, acts: seq<Action>, a: Action, u: UserId)
    returns (i: nat, k: nat, e: int)
    requires IsRun(run, acts) && Init(run[0]) && CanStep(run[|acts|], a) && Returns(run[|acts|], a, u)
    ensures i <= |acts| && a.Statement? && a.t in run[|acts|].txs && |run[|acts|].txs[a.t].writes| == 1
    ensures var w := run[|acts|].txs[a.t].writes[0];
            w.user == u && ReadAt(run[i], w) && InTime(run[i].db.rows[u], w.event, run[i].clock)
    ensures LastMark(run, acts, u, k, e) && run[|acts|].db.rows[u].expiresAt == Some(e)
    ensures k < i ==> run[i].db.rows[u].expiresAt == Some(e) && run[i].clock <= e
    ensures forall j :: k < j < |run| && run[j].clock > e ==> HoldsReturn(run[j], a.t, u)
  {
    var n := |acts|;
    RunSound(run, acts);
    UpdatesReadOverRun(run, acts);
    ReturnIsRejoin(run[n], a, u);
    var w := run[n].txs[a.t].writes[0];
    assert UpdateUnderWay(run[n], a.t, w);
    i :| 0 <= i < |run| && ReadAt(run[i], w);
    k := LateRowIsStamped(run, acts, u);
    e := run[n].db.rows[u].expiresAt.value;
    if k < i { UnmarkedRowFixed(run, acts, u, k + 1, i); }
    forall j | k < j < |run| && run[j].clock > e ensures HoldsReturn(run[j], a.t, u) {
      UnmarkedRowFixed(run, acts, u, k + 1, j);
      ReturnReachesBack(run, acts, a.t, u, j, j);
    }
  }

  // ----- when a lateness can end in a late return: exactly ------------------

  /** Some run that does not mark u late again returns u to WAITING past the deadline. */
  ghost predicate CanReturnLate(s: Sys, u: UserId) {
    exists m, a :: ReachesUnmarked(s, m, u) && CanStep(m, a) && Returns(m, a, u) && PastDeadline(m, u)
  }

  /** While u is LATE: this lateness can end in a return past its deadline exactly when the
      deadline has not gone by, or some transaction under way holds a REJOIN of u that it read
      in time. */
  lemma LateReturnExactly(s: Sys, u: UserId)
    requires SysOk(s) && Sound(s.db) && IsLate(s, u)
    ensures CanReturnLate(s, u) <==> !PastDeadline(s, u) || exists t :: HoldsReturn(s, t, u)
  {
    if CanReturnLate(s, u) && PastDeadline(s, u) {
      var m, a :| ReachesUnmarked(s, m, u) && CanStep(m, a) && Returns(m, a, u) && PastDeadline(m, u);
      LateReturnNeedsHolder(s, m, a, u);
    }
    if t :| HoldsReturn(s, t, u) {
      StaysUnmarked(s, u);
      HolderReturnsLate(s, s, t, u);
    } else if !PastDeadline(s, u) {
      ReadNowReturnsLate(s, u);
    }
  }

  lemma LateReturnNeedsHolder(s: Sys, m: Sys, a: Action, u: UserId)
    requires SysOk(s) && Sound(s.db) && PastDeadline(s, u) && ReachesUnmarked(s, m, u)
    requires CanStep(m, a) && Returns(m, a, u)
    ensures a.Statement? && HoldsReturn(s, a.t, u)
  {
    var run, acts :| RunsTo(run, acts, s, m) && NoMarkFrom(run, acts, u, 0);
    RunStaysSound(run, acts);
    ReturnIsRejoin(m, a, u);
    ReturnReachesBack(run, acts, a.t, u, 0, 0);
  }

  lemma HeldReturn(s: Sys, t: TxId, u: UserId) returns (w: Write)
    requires HoldsReturn(s, t, u)
    ensures Poised(s, t, u, w) && ReturnsBy(w, u)
  {
    w := if s.txs[t].pc.Swapping? then s.txs[t].pc.write else s.txs[t].writes[0];
    assert s.txs[t].pc.Finishing? ==> s.txs[t].writes == [w];
  }

  /** Time passes, and then the transaction lands what it holds. */
  lemma HolderReturnsLate(s: Sys, m: Sys, t: TxId, u: UserId)
    requires ReachesUnmarked(s, m, u) && SysOk(m) && Sound(m.db) && IsLate(m, u) && HoldsReturn(m, t, u)
    ensures CanReturnLate(s, u)
  {
    assert ExplainedAt(m.db, u);
    var dt: nat := if PastDeadline(m, u) then 0 else m.db.rows[u].expiresAt.value - m.clock + 1;
    StepKeeps(m, Tick(dt));
    GoesUnmarked(s, m, Tick(dt), u);
    var later := Do(m, Tick(dt));
    var w := HeldReturn(m, t, u);
    LandsLate(s, later, t, u, w);
  }

  lemma LandsLate(s: Sys, m: Sys, t: TxId, u: UserId, w: Write)
    requires ReachesUnmarked(s, m, u) && SysOk(m) && PastDeadline(m, u)
    requires Poised(m, t, u, w) && ReturnsBy(w, u)
    ensures CanReturnLate(s, u)
  {
    var m' := PoisedLands(m, t, u, w);
    FurtherUnmarked(s, m, m', u);
    PoisedCommits(m', t, u, w);
    assert Returns(m', Statement(t, 0), u) && PastDeadline(m', u);
  }

  /** A new REJOIN can read the row before its deadline. */
  lemma ReadNowReturnsLate(s: Sys, u: UserId)
    requires SysOk(s) && Sound(s.db) && IsLate(s, u) && !PastDeadline(s, u)
    ensures CanReturnLate(s, u)
  {
    var t := FreshTx(s.txs.Keys);
    var kind := Request(u, Rejoin, User);
    var m := Do(s, Begin(t, kind));
    StaysUnmarked(s, u);
    GoesUnmarked(s, s, Begin(t, kind), u);
    StepKeeps(s, Begin(t, kind));
    assert ExplainedAt(s.db, u);
    ReadsInTime(m, t, u);
    GoesUnmarked(s, m, Statement(t, 0), u);
    StepKeeps(m, Statement(t, 0));
    HolderReturnsLate(s, Do(m, Statement(t, 0)), t, u);
  }

  lemma ReadsInTime(s: Sys, t: TxId, u: UserId)
    requires IsLate(s, u) && s.db.rows[u].expiresAt.Some? && !PastDeadline(s, u)
    requires t in s.txs && s.txs[t] == Starting(Request(u, Rejoin, User))
    ensures CanStep(s, Statement(t, 0)) && DoStatement(s, t, 0).db == s.db
    ensures HoldsReturn(DoStatement(s, t, 0), t, u)
  {
    assert View(s.db, s.txs[t]) == s.db;
  }

  lemma {:induction false} FreshTx(used: set<TxId>) returns (t: TxId)
    ensures t !in used && forall o :: o in used ==> o < t
  {
    if used == {} {
      t := 0;
    } else {
      var o :| o in used;
      var t' := FreshTx(used - {o});
      t := if o < t' then t' else o + 1;
      forall p | p in used ensures p < t {
        if p != o { assert p in used - {o}; }
      }
    }
  }
}
