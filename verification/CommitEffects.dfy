/** What each committed transaction leaves behind, under every interleaving. */
module CommitEffects {
  import opened QueueTypes
  import opened Database
  import opened Interleaving
  import opened SlotSafety
  import CallEffects
  import Refinement

  /** The entries a step appends to the log. */
  function NewEntries(s: Sys, a: Action): seq<LogEntry> {
    var n, log := |s.db.log|, Do(s, a).db.log;
    if n <= |log| then log[n..] else []
  }

  /** The log grows by entries alone. */
  predicate LogExtended(s: Sys, a: Action) {
    Do(s, a).db.log == s.db.log + NewEntries(s, a)
  }

  /** The commit of a request appends one entry: about its user, of its event, by its actor. */
  lemma RequestLogged(s: Sys, a: Action)
    requires SysOk(s) && CanStep(s, a) && Commits(s, a) && s.txs[a.t].kind.Request?
    ensures LogExtended(s, a) && |NewEntries(s, a)| == 1
    ensures var e, kind := NewEntries(s, a)[0], s.txs[a.t].kind;
            && |s.txs[a.t].writes| == 1 && kind.user in s.db.rows
            && e.user == kind.user && e.actor == kind.actor
            && e.at == s.txs[a.t].writes[0].at && e.from == Some(s.db.rows[kind.user].status)
            && match kind.event
               case Leave => e.kind.QuLeft? && e.to.Cancelled?
               case Complete => e.kind.QuCompleted? && e.to.Completed?
               case MarkLate => e.kind.QuLate? && e.to.Late?
               case Rejoin => e.kind.QuRejoined? && e.to.Waiting?
               case _ => false
  {
    var tx := s.txs[a.t];
    assert TxOk(s.db, tx);
    ApplyOne(s.db, tx.writes);
    CallEffects.UpdateLogged(s.db, tx.writes[0]);
  }

  /** A join's, by the user: CREATED for a fresh row, REJOINED for an old one. */
  lemma JoinLogged(s: Sys, a: Action)
    requires SysOk(s) && CanStep(s, a) && Commits(s, a) && s.txs[a.t].kind.Join?
    ensures LogExtended(s, a) && |NewEntries(s, a)| == 1
    ensures var e, u := NewEntries(s, a)[0], s.txs[a.t].kind.user;
            && |s.txs[a.t].writes| == 1 && e.at == s.txs[a.t].writes[0].at
            && e.user == u && e.actor.User? && e.to.Waiting?
            && (u in s.db.rows ==> e.kind.QuRejoined?)
            && (u !in s.db.rows ==> e.kind.QuCreated? && e.from.None?)
  {
    var tx := s.txs[a.t];
    assert TxOk(s.db, tx);
    ApplyOne(s.db, tx.writes);
    if tx.writes[0].Change? { CallEffects.UpdateLogged(s.db, tx.writes[0]); }
  }

  /** A worker's, by the system. */
  lemma ExpiryLogged(s: Sys, a: Action)
    requires SysOk(s) && CanStep(s, a) && Commits(s, a) && s.txs[a.t].kind.Expire?
    ensures LogExtended(s, a) && |NewEntries(s, a)| == 1
    ensures var e := NewEntries(s, a)[0];
            && |s.txs[a.t].writes| == 1 && e.at == s.txs[a.t].writes[0].at
            && e.user == s.txs[a.t].kind.user && e.actor.System?
            && e.kind.QuMissed? && e.from == Some(Late) && e.to.Missed?
  {
    var tx := s.txs[a.t];
    assert TxOk(s.db, tx);
    ApplyOne(s.db, tx.writes);
    CallEffects.UpdateLogged(s.db, tx.writes[0]);
  }

  predicate ServedBySystem(e: LogEntry, u: UserId) {
    e.user == u && e.actor.System? && e.kind.QuServed? && e.from == Some(Waiting) && e.to.Serving?
  }

  /** A promoter's, one for each user it serves, in order, by the system. */
  lemma PromotionLogged(s: Sys, a: Action)
    requires SysOk(s) && CanStep(s, a) && Commits(s, a) && s.txs[a.t].kind.Promote?
    ensures var ws, more := s.txs[a.t].writes, NewEntries(s, a);
            && LogExtended(s, a) && |more| == |ws|
            && forall k :: 0 <= k < |ws| ==> ServedBySystem(more[k], ws[k].user)
  {
    assert TxOk(s.db, s.txs[a.t]);
    PromotionEntries(s.db, s.txs[a.t], NewEntries(s, a));
  }

  lemma PromotionEntries(db: Db, tx: Tx, more: seq<LogEntry>)
    requires TxOk(db, tx) && tx.kind.Promote?
    requires var log' := ApplyAll(db, tx.writes).log;
             more == if |db.log| <= |log'| then log'[|db.log|..] else []
    ensures ApplyAll(db, tx.writes).log == db.log + more && |more| == |tx.writes|
    ensures forall k :: 0 <= k < |more| ==> ServedBySystem(more[k], tx.writes[k].user)
  {
    Refinement.LogGrows(db, tx.writes);
    var log' := ApplyAll(db, tx.writes).log;
    assert log' == log'[..|db.log|] + log'[|db.log|..];
    forall k | 0 <= k < |more| ensures ServedBySystem(more[k], tx.writes[k].user) {
      assert more[k] == log'[|db.log| + k];
      assert IsServe(tx.writes[k]) && Lands(db, tx.writes[k]);
    }
  }

  /** An edit commits exactly the positive numbers it was given. */
  lemma SettingsCommitted(s: Sys, a: Action)
    requires SysOk(s) && CanStep(s, a) && Commits(s, a) && s.txs[a.t].kind.Configure?
    ensures var kind, db, db' := s.txs[a.t].kind, s.db, Do(s, a).db;
            && db'.rows == db.rows && db'.log == db.log
            && db'.serviceSlots == (if kind.slots.Some? && kind.slots.value > 0 then kind.slots.value else db.serviceSlots)
            && db'.graceTime == (if kind.grace.Some? && kind.grace.value > 0 then kind.grace.value else db.graceTime)
            && db'.maxSize == (if kind.maxSize.Some? && kind.maxSize.value > 0 then kind.maxSize else db.maxSize)
  {
    CallEffects.EditedExactly(s.db, s.txs[a.t].kind.slots, s.txs[a.t].kind.grace, s.txs[a.t].kind.maxSize);
  }

  /** A promotion becomes owed exactly when an endpoint commits, and is paid by its trigger. */
  lemma OwedExactly(s: Sys, a: Action)
    requires CanStep(s, a)
    ensures Do(s, a).owed > s.owed <==>
              && Commits(s, a)
              && (s.txs[a.t].kind.Request? || s.txs[a.t].kind.Join? || s.txs[a.t].kind.Configure?)
    ensures Do(s, a).owed < s.owed <==> a.Trigger?
    ensures s.owed - 1 <= Do(s, a).owed <= s.owed + 1
  {
  }

  // ----- over runs ----------------------------------------------------------

  /** Who may stand in the log for what. */
  predicate RightActor(e: LogEntry) {
    match e.kind
    case QuServed => e.actor.System?
    case QuMissed => e.actor.System?
    case QuLate => e.actor.Admin?
    case QuCompleted => e.actor.Admin?
    case QuCreated => e.actor.User?
    case QuRejoined => e.actor.User?
    case QuLeft => e.actor.User? || e.actor.Admin?
  }

  ghost predicate RightActors(log: seq<LogEntry>) {
    forall e :: e in log ==> RightActor(e)
  }

  lemma StepRightActors(s: Sys, a: Action)
    requires SysOk(s) && CanStep(s, a)
    ensures LogExtended(s, a) && RightActors(NewEntries(s, a))
  {
    OnlyCommitsChangeTables(s, a);
    if Commits(s, a) {
      var kind := s.txs[a.t].kind;
      assert Requestable(kind) by { assert TxOk(s.db, s.txs[a.t]); }
      match kind
      case Promote => PromotionLogged(s, a);
      case Request(_, _, _) => RequestLogged(s, a);
      case Expire(_) => ExpiryLogged(s, a);
      case Join(_) => JoinLogged(s, a);
      case Configure(_, _, _) => SettingsCommitted(s, a);
    }
  }

  /** In every state of every run from an empty queue: SERVED and MISSED are the system's
      entries, LATE and COMPLETED an admin's, CREATED and REJOINED the user's, LEFT the user's
      or an admin's. */
  lemma {:induction false} ActorsOverRun(run: seq<Sys>, acts: seq<Action>)
    requires IsRun(run, acts) && Init(run[0])
    ensures SysOk(run[|acts|]) && RightActors(run[|acts|].db.log)
  {
    if acts != [] {
      var n := |acts| - 1;
      PrefixRun(run, acts);
      ActorsOverRun(run[..|run| - 1], acts[..n]);
      StepKeeps(run[n], acts[n]);
      StepRightActors(run[n], acts[n]);
    }
  }
}
