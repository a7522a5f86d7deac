/** Expiry under interleaving: when a row can turn MISSED before its deadline. */
module ExpiryRaces {
  import opened QueueTypes
  import opened StateMachine
  import opened Database
  import opened Interleaving
  import opened Runs
  import opened SlotSafety
  import opened History
  import CallEffects

  /** If the row is LATE, its deadline has come. */
  predicate Due(s: Sys, u: UserId) {
    u in s.db.rows && s.db.rows[u].status.Late? ==>
      s.db.rows[u].expiresAt.Some? && s.db.rows[u].expiresAt.value <= s.clock
  }

  /** The step commits a MARK_LATE of u. */
  predicate MarksLate(s: Sys, a: Action, u: UserId) {
    && Commits(s, a)
    && s.txs[a.t].kind.Request?
    && s.txs[a.t].kind.event.MarkLate?
    && s.txs[a.t].kind.user == u
  }

  predicate IsLate(s: Sys, u: UserId) {
    u in s.db.rows && s.db.rows[u].status.Late?
  }

  /** The step turns u from LATE to MISSED. */
  predicate TurnsMissed(s: Sys, a: Action, u: UserId) {
    && IsLate(s, u)
    && u in Do(s, a).db.rows && Do(s, a).db.rows[u].status.Missed?
  }

  lemma PromotedLateRow(db: Db, tx: Tx, u: UserId)
    requires TxOk(db, tx) && tx.kind.Promote?
    requires u in ApplyAll(db, tx.writes).rows && ApplyAll(db, tx.writes).rows[u].status.Late?
    ensures u in db.rows && ApplyAll(db, tx.writes).rows[u] == db.rows[u]
  {
    ApplyAllRows(db, tx.writes);
    ServesMoveSets(db, tx.writes);
    PromoterTouches(db, tx, u);
  }

  lemma WrittenLateRow(db: Db, w: Write, kind: Kind, u: UserId)
    requires Lands(db, w) && Fits(kind, w) && Requestable(kind)
    requires u in Apply(db, w).rows && Apply(db, w).rows[u].status.Late?
    ensures || (kind.Request? && kind.event.MarkLate? && kind.user == u)
            || (u in db.rows && Apply(db, w).rows[u] == db.rows[u])
  {
  }

  /** Only MARK_LATE makes a row LATE, and no write leaves a LATE row LATE. */
  lemma LateRowStep(s: Sys, a: Action, u: UserId)
    requires SysOk(s) && CanStep(s, a) && IsLate(Do(s, a), u)
    ensures MarksLate(s, a, u) || (IsLate(s, u) && Do(s, a).db.rows[u] == s.db.rows[u])
  {
    OnlyCommitsChangeTables(s, a);
    if Commits(s, a) {
      var tx := s.txs[a.t];
      assert TxOk(s.db, tx);
      if tx.kind.Promote? {
        PromotedLateRow(s.db, tx, u);
      } else if !tx.kind.Configure? {
        ApplyOne(s.db, tx.writes);
        WrittenLateRow(s.db, tx.writes[0], tx.kind, u);
      }
    }
  }

  lemma DueStep(s: Sys, a: Action, u: UserId)
    requires SysOk(s) && CanStep(s, a) && Due(s, u) && !MarksLate(s, a, u)
    ensures Due(Do(s, a), u)
  {
    if IsLate(Do(s, a), u) { LateRowStep(s, a, u); }
  }

  /** The transaction has decided to write MISSED over a LATE row of u: the worker once it has
      found the row overdue, or a REJOIN that came too late. */
  predicate Condemns(tx: Tx, u: UserId) {
    || (tx.kind == Expire(u) && tx.pc.Fetching?)
    || (tx.pc.Swapping? && CondemnsBy(tx.pc.write, u))
    || (tx.pc.Finishing? && |tx.writes| == 1 && CondemnsBy(tx.writes[0], u))
  }

  predicate CondemnsBy(w: Write, u: UserId) {
    w.user == u && w.Change? && (w.event.Miss? || Lapsed(w.qu, w.event, w.at))
  }

  predicate HasVerdict(s: Sys, t: TxId, u: UserId) {
    t in s.txs && Condemns(s.txs[t], u)
  }

  lemma PromoterNeverCondemns(tx: Tx, u: UserId)
    requires KindOk(tx) && tx.kind.Promote?
    ensures !Condemns(tx, u)
  {
    if |tx.writes| == 1 { assert IsServe(tx.writes[0]); }
  }

  /** Whoever decides so has just seen that the deadline has come. */
  lemma VerdictIsDue(s: Sys, a: Action, t: TxId, u: UserId)
    requires SysOk(s) && CanStep(s, a) && Explained(s.db)
    requires HasVerdict(Do(s, a), t, u) && !HasVerdict(s, t, u)
    ensures Due(Do(s, a), u)
  {
    StepKeeps(s, a);
    assert TxOk(Do(s, a).db, Do(s, a).txs[t]);
    if Do(s, a).txs[t].kind.Promote? { PromoterNeverCondemns(Do(s, a).txs[t], u); }
    if a.Statement? {
      StatementTouches(s, a.t, a.choice);
      if a.t == t {
        var tx := s.txs[t];
        assert TxOk(s.db, tx) && !tx.kind.Promote?;
        match tx.pc
        case Checking =>
          assert View(s.db, tx) == s.db;
        case Fetching(_) => FetchIsDue(s, t, a.choice, u);
        case _ =>
      }
    }
  }

  lemma FetchIsDue(s: Sys, t: TxId, choice: UserId, u: UserId)
    requires SysOk(s) && Explained(s.db) && t in s.txs && s.txs[t].pc.Fetching? && !s.txs[t].kind.Promote?
    requires HasVerdict(DoStatement(s, t, choice), t, u) && !HasVerdict(s, t, u)
    ensures Due(DoStatement(s, t, choice), u)
  {
    assert TxOk(s.db, s.txs[t]);
    assert View(s.db, s.txs[t]) == s.db;
  }

  /** MISSED is written over a LATE row only by a transaction that has decided to. */
  lemma MissedIsCondemned(s: Sys, a: Action, u: UserId)
    requires SysOk(s) && CanStep(s, a) && TurnsMissed(s, a, u)
    ensures Commits(s, a) && HasVerdict(s, a.t, u)
  {
    OnlyCommitsChangeTables(s, a);
    var tx := s.txs[a.t];
    assert TxOk(s.db, tx);
    if tx.kind.Promote? {
      PromoterTouches(s.db, tx, u);
    } else if !tx.kind.Configure? {
      ApplyOne(s.db, tx.writes);
    }
  }

  /** No MARK_LATE of u commits from action i on. */
  ghost predicate NoMarkFrom(run: seq<Sys>, acts: seq<Action>, u: UserId, i: nat)
    requires |run| == |acts| + 1
  {
    forall j :: i <= j < |acts| ==> !MarksLate(run[j], acts[j], u)
  }

  lemma {:induction false} DueFrom(run: seq<Sys>, acts: seq<Action>, u: UserId, i: nat)
    requires IsRun(run, acts) && i <= |acts| && Due(run[i], u)
    requires forall j :: 0 <= j < |run| ==> SysOk(run[j])
    requires NoMarkFrom(run, acts, u, i)
    ensures Due(run[|acts|], u)
    decreases |acts| - i
  {
    if i < |acts| {
      DueStep(run[i], acts[i], u);
      DueFrom(run, acts, u, i + 1);
    }
  }

  lemma DueOverRun(run: seq<Sys>, acts: seq<Action>, u: UserId)
    requires IsRun(run, acts) && SysOk(run[0]) && Due(run[0], u)
    requires NoMarkFrom(run, acts, u, 0)
    ensures Due(run[|acts|], u)
  {
    RunKeepsSysOk(run, acts);
    DueFrom(run, acts, u, 0);
  }

  // ----- when a strike is early: exactly ------------------------------------

  /** The deadline that a committing MARK_LATE stamps. */
  function StampOf(s: Sys, a: Action): int
    requires Commits(s, a) && |s.txs[a.t].writes| == 1 && s.txs[a.t].writes[0].Change?
  {
    ComputeExpiry(s.txs[a.t].writes[0].at, s.txs[a.t].writes[0].graceTime)
  }

  lemma MarkStamps(s: Sys, a: Action, u: UserId)
    requires SysOk(s) && CanStep(s, a) && MarksLate(s, a, u)
    ensures |s.txs[a.t].writes| == 1 && s.txs[a.t].writes[0].Change?
    ensures IsLate(Do(s, a), u) && Do(s, a).db.rows[u].expiresAt == Some(StampOf(s, a))
  {
    assert TxOk(s.db, s.txs[a.t]);
    ApplyOne(s.db, s.txs[a.t].writes);
  }

  /** The k-th action is the last one that commits a MARK_LATE of u, and the deadline it stamps is e. */
  ghost predicate LastMark(run: seq<Sys>, acts: seq<Action>, u: UserId, k: nat, e: int)
    requires |run| == |acts| + 1
  {
    && k < |acts|
    && MarksLate(run[k], acts[k], u)
    && |run[k].txs[acts[k].t].writes| == 1 && run[k].txs[acts[k].t].writes[0].Change?
    && StampOf(run[k], acts[k]) == e
    && NoMarkFrom(run, acts, u, k + 1)
  }

  ghost predicate SoundRun(run: seq<Sys>) {
    forall i :: 0 <= i < |run| ==> SysOk(run[i]) && Explained(run[i].db)
  }

  lemma {:induction false} RunStaysSound(run: seq<Sys>, acts: seq<Action>)
    requires IsRun(run, acts) && SysOk(run[0]) && Sound(run[0].db)
    ensures SoundRun(run) && Sound(run[|acts|].db)
  {
    if acts != [] {
      var n, front := |acts| - 1, run[..|run| - 1];
      PrefixRun(run, acts);
      RunStaysSound(front, acts[..n]);
      assert front[n] == run[n] && SysOk(front[n]);
      StepKeeps(run[n], acts[n]);
      StepKeepsSound(run[n], acts[n]);
      forall i | 0 <= i < |run| ensures SysOk(run[i]) && Explained(run[i].db) {
        if i < |front| { assert run[i] == front[i]; }
      }
    }
  }

  lemma RunSound(run: seq<Sys>, acts: seq<Action>)
    requires IsRun(run, acts) && Init(run[0])
    ensures SoundRun(run)
  {
    EmptySound(run[0].db);
    RunStaysSound(run, acts);
  }

  /** No commit but that of a MARK_LATE gives a row a deadline, or changes the one it has. */
  lemma ExpiryStep(s: Sys, a: Action, u: UserId)
    requires SysOk(s) && CanStep(s, a)
    requires u in Do(s, a).db.rows && Do(s, a).db.rows[u].expiresAt.Some?
    ensures || MarksLate(s, a, u)
            || (u in s.db.rows && s.db.rows[u].expiresAt == Do(s, a).db.rows[u].expiresAt)
  {
    OnlyCommitsChangeTables(s, a);
    if Commits(s, a) && !s.txs[a.t].kind.Configure? {
      var tx := s.txs[a.t];
      assert TxOk(s.db, tx);
      ApplyAllRows(s.db, tx.writes);
      if u in WriteUsers(tx.writes) {
        var w :| w in tx.writes && w.user == u;
        WrittenExpiry(s.db, w);
        assert tx.kind.Promote? ==> IsServe(w);
      }
    }
  }

  lemma WrittenExpiry(db: Db, w: Write)
    requires Lands(db, w)
    ensures NewRow(db, w).expiresAt.Some? ==>
              w.Change? && (w.event.MarkLate? || NewRow(db, w).expiresAt == db.rows[w.user].expiresAt)
  {
    if w.Change? { CallEffects.UpdatedRow(db, w); }
  }

  /** A deadline on a row, whatever the row's status, is the one stamped by the last MARK_LATE of
      it that committed. */
  lemma {:induction false} ExpiryIsStamped(run: seq<Sys>, acts: seq<Action>, u: UserId) returns (k: nat)
    requires IsRun(run, acts) && Init(run[0])
    requires u in run[|acts|].db.rows && run[|acts|].db.rows[u].expiresAt.Some?
    ensures LastMark(run, acts, u, k, run[|acts|].db.rows[u].expiresAt.value)
  {
    var n := |acts| - 1;
    assert acts != [];
    RunSound(run, acts);
    PrefixRun(run, acts);
    if MarksLate(run[n], acts[n], u) {
      k := n;
      MarkStamps(run[n], acts[n], u);
    } else {
      ExpiryStep(run[n], acts[n], u);
      assert run[..|run| - 1][n] == run[n];
      k := ExpiryIsStamped(run[..|run| - 1], acts[..n], u);
      ExtendLastMark(run, acts, u, k, run[n].db.rows[u].expiresAt.value);
    }
  }

  /** A LATE row has a deadline, the one stamped by the last MARK_LATE that committed. */
  lemma LateRowIsStamped(run: seq<Sys>, acts: seq<Action>, u: UserId) returns (k: nat)
    requires IsRun(run, acts) && Init(run[0]) && IsLate(run[|acts|], u)
    ensures run[|acts|].db.rows[u].expiresAt.Some?
    ensures LastMark(run, acts, u, k, run[|acts|].db.rows[u].expiresAt.value)
  {
    RunSound(run, acts);
    assert ExplainedAt(run[|acts|].db, u);
    k := ExpiryIsStamped(run, acts, u);
  }

  lemma ExtendLastMark(run: seq<Sys>, acts: seq<Action>, u: UserId, k: nat, e: int)
    requires |run| == |acts| + 1 && acts != []
    requires LastMark(run[..|run| - 1], acts[..|acts| - 1], u, k, e)
    requires !MarksLate(run[|acts| - 1], acts[|acts| - 1], u)
    ensures LastMark(run, acts, u, k, e)
  {
    var n := |acts| - 1;
    var front, less := run[..|run| - 1], acts[..n];
    assert front[k] == run[k] && less[k] == acts[k];
    forall i | k < i < |acts| ensures !MarksLate(run[i], acts[i], u) {
      if i < n { assert front[i] == run[i] && less[i] == acts[i] && !MarksLate(front[i], less[i], u); }
    }
  }

  /** From state k on, the transaction t has its verdict against u. */
  ghost predicate HeldVerdict(run: seq<Sys>, k: nat, t: TxId, u: UserId) {
    forall i :: k <= i < |run| ==> HasVerdict(run[i], t, u)
  }

  /** A verdict reached after the last MARK_LATE is never early. */
  lemma FreshVerdictIsDue(run: seq<Sys>, acts: seq<Action>, t: TxId, u: UserId, i: nat)
    requires IsRun(run, acts) && SoundRun(run) && i < |acts|
    requires HasVerdict(run[i + 1], t, u) && !HasVerdict(run[i], t, u)
    requires NoMarkFrom(run, acts, u, i + 1)
    ensures Due(run[|acts|], u)
  {
    VerdictIsDue(run[i], acts[i], t, u);
    DueFrom(run, acts, u, i + 1);
  }

  lemma {:induction false} VerdictReachesBack(run: seq<Sys>, acts: seq<Action>, t: TxId, u: UserId, k: nat, i: nat)
    requires IsRun(run, acts) && SoundRun(run) && k <= i <= |acts|
    requires NoMarkFrom(run, acts, u, k + 1)
    requires !Due(run[|acts|], u) && HasVerdict(run[|acts|], t, u)
    ensures HasVerdict(run[i], t, u)
    decreases |acts| - i
  {
    if i < |acts| {
      VerdictReachesBack(run, acts, t, u, k, i + 1);
      if !HasVerdict(run[i], t, u) {
        assert NoMarkFrom(run, acts, u, i + 1);
        FreshVerdictIsDue(run, acts, t, u, i);
      }
    }
  }

  /** In any run from an empty queue that ends with u going from LATE to MISSED: if the deadline
      stamped by the last MARK_LATE of u is still ahead, the striking transaction has held its
      verdict since before that MARK_LATE committed. */
  lemma EarlyStrikeIsOldVerdict(run: seq<Sys>, acts: seq<Action>, a: Action, u: UserId) returns (k: nat, e: int)
    requires IsRun(run, acts) && Init(run[0]) && CanStep(run[|acts|], a) && TurnsMissed(run[|acts|], a, u)
    ensures LastMark(run, acts, u, k, e) && run[|acts|].db.rows[u].expiresAt == Some(e)
    ensures Commits(run[|acts|], a)
    ensures e > run[|acts|].clock ==> HeldVerdict(run, k, a.t, u)
  {
    RunSound(run, acts);
    k := LateRowIsStamped(run, acts, u);
    e := run[|acts|].db.rows[u].expiresAt.value;
    MissedIsCondemned(run[|acts|], a, u);
    if e > run[|acts|].clock {
      forall i | k <= i < |run| ensures HasVerdict(run[i], a.t, u) {
        VerdictReachesBack(run, acts, a.t, u, k, i);
      }
    }
  }

  // ----- runs in which u is not marked late again ---------------------------

  ghost predicate ReachesUnmarked(s: Sys, s': Sys, u: UserId) {
    exists run, acts :: RunsTo(run, acts, s, s') && NoMarkFrom(run, acts, u, 0)
  }

  lemma StaysUnmarked(s: Sys, u: UserId)
    ensures ReachesUnmarked(s, s, u)
  {
    assert RunsTo([s], [], s, s) && NoMarkFrom([s], [], u, 0);
  }

  lemma GoesUnmarked(s: Sys, m: Sys, a: Action, u: UserId)
    requires ReachesUnmarked(s, m, u) && CanStep(m, a) && !MarksLate(m, a, u)
    ensures ReachesUnmarked(s, Do(m, a), u)
  {
    var run, acts :| RunsTo(run, acts, s, m) && NoMarkFrom(run, acts, u, 0);
    AppendStep(run, acts, s, m, a);
    var run', acts' := run + [Do(m, a)], acts + [a];
    forall j | 0 <= j < |acts'| ensures !MarksLate(run'[j], acts'[j], u) {
      assert run'[j] == run[j];
      if j < |acts| { assert acts'[j] == acts[j]; }
    }
    assert NoMarkFrom(run', acts', u, 0);
  }

  lemma FurtherUnmarked(s: Sys, m: Sys, s': Sys, u: UserId)
    requires ReachesUnmarked(s, m, u) && ReachesUnmarked(m, s', u)
    ensures ReachesUnmarked(s, s', u)
  {
    var run, acts :| RunsTo(run, acts, m, s') && NoMarkFrom(run, acts, u, 0);
    FurtherUnmarkedBy(s, run, acts, u, |acts|);
  }

  lemma {:induction false} FurtherUnmarkedBy(s: Sys, run: seq<Sys>, acts: seq<Action>, u: UserId, k: nat)
    requires IsRun(run, acts) && ReachesUnmarked(s, run[0], u) && NoMarkFrom(run, acts, u, 0) && k <= |acts|
    ensures ReachesUnmarked(s, run[k], u)
  {
    if k > 0 {
      FurtherUnmarkedBy(s, run, acts, u, k - 1);
      GoesUnmarked(s, run[k - 1], acts[k - 1], u);
    }
  }

  lemma AloneUnmarked(s: Sys, t: TxId, u: UserId)
    requires SysOk(s) && t in s.txs
    ensures ReachesUnmarked(s, Alone(s, t), u) && SysOk(Alone(s, t))
  {
    var run, acts := CrashOthers(s, t);
    forall j | 0 <= j < |acts| ensures !MarksLate(run[j], acts[j], u) {
      assert acts[j] in acts;
    }
    assert NoMarkFrom(run, acts, u, 0);
  }

  /** A LATE row that no MARK_LATE has touched since state i has been the same since. */
  lemma {:induction false} UnmarkedRowFixed(run: seq<Sys>, acts: seq<Action>, u: UserId, i: nat, j: nat)
    requires IsRun(run, acts) && SoundRun(run) && i <= j <= |acts| && IsLate(run[|acts|], u)
    requires NoMarkFrom(run, acts, u, i)
    ensures IsLate(run[j], u) && run[j].db.rows[u] == run[|acts|].db.rows[u]
    decreases |acts| - j
  {
    if j < |acts| {
      UnmarkedRowFixed(run, acts, u, i, j + 1);
      LateRowStep(run[j], acts[j], u);
    }
  }

  lemma {:induction false} ClockForward(run: seq<Sys>, acts: seq<Action>, i: nat, j: nat)
    requires IsRun(run, acts) && i <= j <= |acts|
    ensures run[i].clock <= run[j].clock
  {
    if i < j { ClockForward(run, acts, i, j - 1); }
  }

  // ----- an update that rests on a LATE row ---------------------------------

  /** The transaction is about to write w, or has written it, over u's row read as LATE. */
  predicate Poised(s: Sys, t: TxId, u: UserId, w: Write) {
    && t in s.txs && !s.txs[t].kind.Promote?
    && w.Change? && w.user == u && w.qu.status.Late?
    && (s.txs[t].pc == Swapping(w) || (s.txs[t].pc.Finishing? && s.txs[t].writes == [w]))
  }

  /** While the row is LATE nothing keeps such an update from landing but the lock of another
      transaction, which can be rolled back. */
  lemma PoisedLands(s: Sys, t: TxId, u: UserId, w: Write) returns (m: Sys)
    requires SysOk(s) && IsLate(s, u) && Poised(s, t, u, w)
    ensures ReachesUnmarked(s, m, u) && SysOk(m) && m.db == s.db && m.clock == s.clock
    ensures Poised(m, t, u, w) && m.txs[t].pc.Finishing?
  {
    AloneUnmarked(s, t, u);
    m := Alone(s, t);
    if m.txs[t].pc.Swapping? {
      SwapAlone(m, t, u, w);
      StepKeeps(m, Statement(t, 0));
      GoesUnmarked(s, m, Statement(t, 0), u);
      m := Do(m, Statement(t, 0));
    }
  }

  lemma SwapAlone(s: Sys, t: TxId, u: UserId, w: Write)
    requires SysOk(s) && IsLate(s, u) && Poised(s, t, u, w) && s.txs == map[t := s.txs[t]] && s.txs[t].pc.Swapping?
    ensures CanStep(s, Statement(t, 0)) && DoStatement(s, t, 0).db == s.db && DoStatement(s, t, 0).clock == s.clock
    ensures Poised(DoStatement(s, t, 0), t, u, w) && DoStatement(s, t, 0).txs[t].pc.Finishing?
  {
    assert TxOk(s.db, s.txs[t]);
    assert View(s.db, s.txs[t]) == s.db && Lands(s.db, w);
    assert s.txs[t].writes + [w] == [w];
  }

  lemma PoisedCommits(s: Sys, t: TxId, u: UserId, w: Write)
    requires SysOk(s) && IsLate(s, u) && Poised(s, t, u, w) && s.txs[t].pc.Finishing?
    ensures CanStep(s, Statement(t, 0)) && Lands(s.db, w) && Do(s, Statement(t, 0)).db == Apply(s.db, w)
  {
    assert TxOk(s.db, s.txs[t]) && w in s.txs[t].writes;
    ApplyOne(s.db, [w]);
  }

  // ----- when a lateness can be struck early: exactly -----------------------

  /** Some run that does not mark u late again strikes this lateness before its deadline. */
  ghost predicate CanStrikeEarly(s: Sys, u: UserId) {
    exists m, a :: ReachesUnmarked(s, m, u) && CanStep(m, a) && TurnsMissed(m, a, u) && !Due(m, u)
  }

  /** While u is LATE, in particular as its MARK_LATE has just committed: this lateness can be
      struck before its deadline exactly when the deadline is ahead and some transaction under
      way holds a verdict against u already. */
  lemma EarlyStrikeExactly(s: Sys, u: UserId)
    requires SysOk(s) && Sound(s.db) && IsLate(s, u)
    ensures CanStrikeEarly(s, u) <==> !Due(s, u) && exists t :: HasVerdict(s, t, u)
  {
    if CanStrikeEarly(s, u) {
      var m, a :| ReachesUnmarked(s, m, u) && CanStep(m, a) && TurnsMissed(m, a, u) && !Due(m, u);
      EarlyStrikeNeedsVerdict(s, m, a, u);
    }
    if t :| !Due(s, u) && HasVerdict(s, t, u) { VerdictStrikesEarly(s, t, u); }
  }

  lemma EarlyStrikeNeedsVerdict(s: Sys, m: Sys, a: Action, u: UserId)
    requires SysOk(s) && Sound(s.db) && ReachesUnmarked(s, m, u)
    requires CanStep(m, a) && TurnsMissed(m, a, u) && !Due(m, u)
    ensures !Due(s, u) && a.Statement? && HasVerdict(s, a.t, u)
  {
    var run, acts :| RunsTo(run, acts, s, m) && NoMarkFrom(run, acts, u, 0);
    RunStaysSound(run, acts);
    MissedIsCondemned(m, a, u);
    VerdictReachesBack(run, acts, a.t, u, 0, 0);
    if Due(s, u) { DueOverRun(run, acts, u); }
  }

  lemma VerdictStrikesEarly(s: Sys, t: TxId, u: UserId)
    requires SysOk(s) && IsLate(s, u) && !Due(s, u) && HasVerdict(s, t, u)
    ensures CanStrikeEarly(s, u)
  {
    if s.txs[t].pc.Fetching? {
      AloneUnmarked(s, t, u);
      var m := Alone(s, t);
      FetchAlone(m, t, u);
      GoesUnmarked(s, m, Statement(t, 0), u);
      StepKeeps(m, Statement(t, 0));
      var m' := Do(m, Statement(t, 0));
      WrittenVerdictStrikes(s, m', t, u, m'.txs[t].pc.write);
    } else {
      StaysUnmarked(s, u);
      var w := VerdictWrite(s, t, u);
      WrittenVerdictStrikes(s, s, t, u, w);
    }
  }

  lemma VerdictWrite(s: Sys, t: TxId, u: UserId) returns (w: Write)
    requires SysOk(s) && HasVerdict(s, t, u) && !s.txs[t].pc.Fetching?
    ensures Poised(s, t, u, w) && CondemnsBy(w, u)
  {
    assert TxOk(s.db, s.txs[t]);
    if s.txs[t].kind.Promote? { PromoterNeverCondemns(s.txs[t], u); }
    w := if s.txs[t].pc.Swapping? then s.txs[t].pc.write else s.txs[t].writes[0];
    assert s.txs[t].pc.Finishing? ==> s.txs[t].writes == [w] && Lands(s.db, w);
    assert Allowed(w);
  }

  lemma FetchAlone(s: Sys, t: TxId, u: UserId)
    requires SysOk(s) && IsLate(s, u) && t in s.txs && s.txs[t].kind == Expire(u) && s.txs[t].pc.Fetching?
    ensures CanStep(s, Statement(t, 0)) && DoStatement(s, t, 0).db == s.db && DoStatement(s, t, 0).clock == s.clock
    ensures t in DoStatement(s, t, 0).txs && DoStatement(s, t, 0).txs[t].pc.Swapping?
    ensures var w := DoStatement(s, t, 0).txs[t].pc.write;
            Poised(DoStatement(s, t, 0), t, u, w) && CondemnsBy(w, u)
  {
    assert TxOk(s.db, s.txs[t]);
    assert View(s.db, s.txs[t]) == s.db;
  }

  lemma WrittenVerdictStrikes(s: Sys, m: Sys, t: TxId, u: UserId, w: Write)
    requires ReachesUnmarked(s, m, u) && SysOk(m) && IsLate(m, u) && !Due(m, u)
    requires Poised(m, t, u, w) && CondemnsBy(w, u)
    ensures CanStrikeEarly(s, u)
  {
    var m' := PoisedLands(m, t, u, w);
    FurtherUnmarked(s, m, m', u);
    PoisedCommits(m', t, u, w);
    assert TurnsMissed(m', Statement(t, 0), u);
  }
}
