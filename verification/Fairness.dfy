/** Order over whole interleaved runs: no overtaking, and a bound on the wait. */
module Fairness {
  import opened QueueTypes
  import opened Database
  import opened SetFacts
  import opened Promotion
  import opened Interleaving
  import opened SlotSafety

  predicate IsWaiting(s: Sys, u: UserId) {
    u in s.db.rows && s.db.rows[u].status.Waiting?
  }

  /** A promoter holds the Queue lock. */
  predicate Promoting(s: Sys) {
    s.lock.Some? && s.lock.value in s.txs && s.txs[s.lock.value].kind.Promote?
  }

  /** Users the promoter holding the lock has served, not yet committed. */
  function Served(s: Sys): set<UserId> {
    if Promoting(s) then WriteUsers(s.txs[s.lock.value].writes) else {}
  }

  /** Those, and the user it has picked. */
  function Picks(s: Sys): set<UserId> {
    if !Promoting(s) then {}
    else
      match s.txs[s.lock.value].pc
      case Fetching(u) => Served(s) + {u}
      case Swapping(w) => Served(s) + {w.user}
      case _ => Served(s)
  }

  /** The lock holder commits. */
  predicate CommitsPromotion(s: Sys, a: Action) {
    Commits(s, a) && s.txs[a.t].kind.Promote?
  }

  /** The lock holder picks its next user. */
  predicate MakesPick(s: Sys, a: Action) {
    && a.Statement? && a.t in s.txs && s.lock == Some(a.t)
    && s.txs[a.t].kind.Promote? && s.txs[a.t].pc.Picking?
    && Users(View(s.db, s.txs[a.t]).rows, Waiting) != {}
  }

  /** Both wait, and a is strictly ahead of b. */
  predicate Outranks(s: Sys, a: UserId, b: UserId) {
    IsWaiting(s, a) && IsWaiting(s, b) && Before(s.db.rows[a], s.db.rows[b])
  }

  ghost predicate WaitsThroughout(run: seq<Sys>, u: UserId) {
    forall i :: 0 <= i < |run| ==> IsWaiting(run[i], u)
  }

  // ----- one step -----------------------------------------------------------

  /** A user who waits before and after a step has the same row: neither sort key changes. */
  lemma WaitingRowFixed(s: Sys, a: Action, u: UserId)
    requires SysOk(s) && CanStep(s, a) && IsWaiting(s, u) && IsWaiting(Do(s, a), u)
    ensures Do(s, a).db.rows[u] == s.db.rows[u]
    ensures CommitsPromotion(s, a) ==> u !in Served(s)
  {
    OnlyCommitsChangeTables(s, a);
    if Commits(s, a) {
      var tx := s.txs[a.t];
      assert TxOk(s.db, tx);
      if !tx.kind.Configure? { ApplyAllRows(s.db, tx.writes); }
      if u in WriteUsers(tx.writes) { WrittenLeavesWaiting(s.db, tx, u); }
    }
  }

  /** The only events of a WAITING row are SERVE and LEAVE. */
  lemma WrittenLeavesWaiting(db: Db, tx: Tx, u: UserId)
    requires TxOk(db, tx) && u in Users(db.rows, Waiting) && u in WriteUsers(tx.writes)
    ensures u in ApplyAll(db, tx.writes).rows && !ApplyAll(db, tx.writes).rows[u].status.Waiting?
  {
    ApplyAllRows(db, tx.writes);
    var w :| w in tx.writes && w.user == u;
    assert Lands(db, w);
    assert tx.kind.Promote? ==> IsServe(w);
  }

  /** The picks only grow by a best user of the holder's view; otherwise they stay, or all go. */
  lemma PicksStep(s: Sys, a: Action)
    requires SysOk(s) && CanStep(s, a)
    ensures CommitsPromotion(s, a) ==> Picks(Do(s, a)) == {}
    ensures Picks(Do(s, a)) <= Picks(s) + (if MakesPick(s, a) then {a.choice} else {})
    ensures Picks(Do(s, a)) == {} || (Picks(s) <= Picks(Do(s, a)) && Served(s) <= Served(Do(s, a)))
    ensures MakesPick(s, a) ==> Served(Do(s, a)) == Served(s)
  {
    if a.Statement? {
      assert TxOk(s.db, s.txs[a.t]);
      if s.txs[a.t].kind.Promote? { PromoterPicks(s, a.t, a.choice); } else { OthersPickNothing(s, a.t, a.choice); }
    } else {
      QuietPicks(s, a);
    }
  }

  lemma QuietPicks(s: Sys, a: Action)
    requires LockOk(s) && CanStep(s, a) && !a.Statement?
    ensures Picks(Do(s, a)) == {} || (Picks(Do(s, a)) == Picks(s) && Served(Do(s, a)) == Served(s))
  {
  }

  lemma OthersPickNothing(s: Sys, t: TxId, choice: UserId)
    requires SysOk(s) && CanStep(s, Statement(t, choice)) && !s.txs[t].kind.Promote?
    ensures Picks(DoStatement(s, t, choice)) == {} ||
            (Picks(DoStatement(s, t, choice)) == Picks(s) && Served(DoStatement(s, t, choice)) == Served(s))
  {
    StatementTouches(s, t, choice);
    OthersFrame(s, t, DoStatement(s, t, choice));
  }

  lemma OthersFrame(s: Sys, t: TxId, s': Sys)
    requires LockOk(s) && t in s.txs && !s.txs[t].kind.Promote? && StatementFrame(s, t, s')
    requires s.txs[t].pc.AwaitLock? ==> s.lock.None?
    requires s.lock == Some(t) ==> s'.lock.None? || s'.lock == s.lock
    ensures Picks(s') == {} || (Picks(s') == Picks(s) && Served(s') == Served(s))
  {
  }

  lemma PromoterPicks(s: Sys, t: TxId, choice: UserId)
    requires SysOk(s) && CanStep(s, Statement(t, choice)) && s.txs[t].kind.Promote?
    ensures s.txs[t].pc.Finishing? ==> Picks(DoStatement(s, t, choice)) == {}
    ensures Picks(DoStatement(s, t, choice))
         <= Picks(s) + (if MakesPick(s, Statement(t, choice)) then {choice} else {})
    ensures Picks(DoStatement(s, t, choice)) == {}
         || (Picks(s) <= Picks(DoStatement(s, t, choice)) && Served(s) <= Served(DoStatement(s, t, choice)))
    ensures MakesPick(s, Statement(t, choice)) ==> Served(DoStatement(s, t, choice)) == Served(s)
  {
    assert TxOk(s.db, s.txs[t]) && (HoldsLock(s.txs[t]) <==> s.lock == Some(t));
    if s.txs[t].pc.Swapping? { SwapPicks(s, t, choice); } else { OtherPicks(s, t, choice); }
  }

  lemma SwapPicks(s: Sys, t: TxId, choice: UserId)
    requires t in s.txs && s.txs[t].kind.Promote? && s.txs[t].pc.Swapping? && s.lock == Some(t)
    ensures Picks(DoStatement(s, t, choice)) == {}
         || (Picks(DoStatement(s, t, choice)) == Picks(s) && Served(s) <= Served(DoStatement(s, t, choice)))
  {
    WriteUsersSnoc(s.txs[t].writes, s.txs[t].pc.write);
  }

  lemma OtherPicks(s: Sys, t: TxId, choice: UserId)
    requires t in s.txs && s.txs[t].kind.Promote? && !s.txs[t].pc.Swapping? && KindOk(s.txs[t])
    requires if s.txs[t].pc.AwaitLock? then s.lock.None? else s.lock == Some(t)
    ensures s.txs[t].pc.Finishing? ==> Picks(DoStatement(s, t, choice)) == {}
    ensures Picks(DoStatement(s, t, choice))
         <= Picks(s) + (if MakesPick(s, Statement(t, choice)) then {choice} else {})
    ensures Picks(DoStatement(s, t, choice)) == {}
         || (Picks(s) <= Picks(DoStatement(s, t, choice)) && Served(s) == Served(DoStatement(s, t, choice)))
    ensures MakesPick(s, Statement(t, choice)) ==> Served(DoStatement(s, t, choice)) == Served(s)
  {
  }

  /** Whoever the holder picks, nobody it can see waiting is strictly ahead. */
  lemma PickIsBest(s: Sys, a: Action, u: UserId)
    requires SysOk(s) && CanStep(s, a) && MakesPick(s, a)
    requires IsWaiting(s, u) && u !in Served(s)
    ensures IsWaiting(s, a.choice) && !Before(s.db.rows[u], s.db.rows[a.choice])
  {
    var tx := s.txs[a.t];
    assert TxOk(s.db, tx);
    ServesMoveUsers(s.db, tx.writes);
    ApplyAllRows(s.db, tx.writes);
    var view := View(s.db, tx);
    assert Best(view.rows, a.choice) && u in Users(view.rows, Waiting);
  }

  function NewlyServing(s: Sys, s': Sys): set<UserId> {
    Users(s'.db.rows, Serving) - Users(s.db.rows, Serving)
  }

  /** Only the holder's commit promotes, and it promotes exactly whom it served. */
  lemma PromotedAreServed(s: Sys, a: Action)
    requires SysOk(s) && CanStep(s, a)
    ensures NewlyServing(s, Do(s, a)) == if CommitsPromotion(s, a) then Served(s) else {}
    ensures CommitsPromotion(s, a) ==> Served(s) <= Users(s.db.rows, Waiting) && Picks(s) == Served(s)
  {
    OnlyCommitsChangeTables(s, a);
    if Commits(s, a) {
      var tx := s.txs[a.t];
      assert TxOk(s.db, tx);
      if tx.kind.Promote? {
        ServesMoveUsers(s.db, tx.writes);
        assert Users(s.db.rows, Serving) !! Users(s.db.rows, Waiting);
      } else if !tx.kind.Configure? {
        SingleKeepsServing(s.db, tx.writes, tx.kind);
      }
    }
  }

  // ----- no overtaking ------------------------------------------------------

  /** The holder has not passed a over in favour of b. */
  predicate NotPassedOver(s: Sys, a: UserId, b: UserId) {
    b in Picks(s) ==> a in Picks(s)
  }

  lemma StepNotPassedOver(s: Sys, act: Action, a: UserId, b: UserId)
    requires SysOk(s) && CanStep(s, act)
    requires Outranks(s, a, b) && NotPassedOver(s, a, b)
    ensures NotPassedOver(Do(s, act), a, b)
    ensures b in NewlyServing(s, Do(s, act)) ==> a in NewlyServing(s, Do(s, act))
  {
    PicksStep(s, act);
    PromotedAreServed(s, act);
    if MakesPick(s, act) && a !in Served(s) { PickIsBest(s, act, a); }
    if b in Served(s) { assert b in Picks(s); }
  }

  /** Over a run in which a and b wait throughout, with a strictly ahead: if the next step
      promotes b, the same commit promotes a. The promoter that holds the lock when the
      run starts must not have passed a over already. */
  lemma {:induction false} NoOvertaking(run: seq<Sys>, acts: seq<Action>, a: UserId, b: UserId, next: Action)
    requires IsRun(run, acts) && SysOk(run[0]) && CanStep(run[|acts|], next)
    requires WaitsThroughout(run, a) && WaitsThroughout(run, b)
    requires Outranks(run[0], a, b) && NotPassedOver(run[0], a, b)
    ensures b in NewlyServing(run[|acts|], Do(run[|acts|], next)) ==>
              a in NewlyServing(run[|acts|], Do(run[|acts|], next))
  {
    PairOrderKept(run, acts, a, b);
    StepNotPassedOver(run[|acts|], next, a, b);
  }

  lemma {:induction false} PairOrderKept(run: seq<Sys>, acts: seq<Action>, a: UserId, b: UserId)
    requires IsRun(run, acts) && SysOk(run[0])
    requires WaitsThroughout(run, a) && WaitsThroughout(run, b)
    requires Outranks(run[0], a, b) && NotPassedOver(run[0], a, b)
    ensures SysOk(run[|acts|]) && NotPassedOver(run[|acts|], a, b) && Outranks(run[|acts|], a, b)
  {
    if acts != [] {
      var n := |acts| - 1;
      PrefixRun(run, acts);
      PairOrderKept(run[..|run| - 1], acts[..n], a, b);
      StepKeeps(run[n], acts[n]);
      StepNotPassedOver(run[n], acts[n], a, b);
      WaitingRowFixed(run[n], acts[n], a);
      WaitingRowFixed(run[n], acts[n], b);
    }
  }

  // ----- bounded wait -------------------------------------------------------

  /** Waiting users, other than u, who are not strictly behind u. */
  function NotBehind(s: Sys, u: UserId): set<UserId> {
    set v | v in s.db.rows && v != u && IsWaiting(s, v) && u in s.db.rows && !Before(s.db.rows[u], s.db.rows[v])
  }

  /** Everyone who can still be promoted before u without a new arrival: those not behind
      u, and those a promoter has picked already. */
  function Rivals(s: Sys, u: UserId): set<UserId> {
    NotBehind(s, u) + (if u in Served(s) then {} else Picks(s) - {u})
  }

  /** Users whose row lands in WAITING, not behind u, in this step. */
  function Arrivals(s: Sys, s': Sys, u: UserId): set<UserId> {
    NotBehind(s', u) - Users(s.db.rows, Waiting)
  }

  lemma RivalsCovered(s: Sys, a: Action, u: UserId)
    requires SysOk(s) && CanStep(s, a) && IsWaiting(s, u) && IsWaiting(Do(s, a), u)
    ensures Rivals(Do(s, a), u) <= Rivals(s, u) + Arrivals(s, Do(s, a), u)
  {
    var s' := Do(s, a);
    WaitingRowFixed(s, a, u);
    PicksStep(s, a);
    forall v | v in Rivals(s', u) ensures v in Rivals(s, u) + Arrivals(s, s', u) {
      if v in NotBehind(s', u) {
        if IsWaiting(s, v) { WaitingRowFixed(s, a, v); }
      } else if v !in Picks(s) {
        PickIsBest(s, a, u);
      }
    }
  }

  lemma PromotedAreRivals(s: Sys, a: Action, u: UserId)
    requires SysOk(s) && CanStep(s, a) && IsWaiting(s, u) && IsWaiting(Do(s, a), u)
    ensures NewlyServing(s, Do(s, a)) <= Rivals(s, u)
    ensures NewlyServing(s, Do(s, a)) !! Rivals(Do(s, a), u)
  {
    WaitingRowFixed(s, a, u);
    PicksStep(s, a);
    PromotedAreServed(s, a);
  }

  lemma RivalsStep(s: Sys, a: Action, u: UserId)
    requires SysOk(s) && CanStep(s, a) && IsWaiting(s, u) && IsWaiting(Do(s, a), u)
    ensures |Rivals(Do(s, a), u)| + |NewlyServing(s, Do(s, a))| <= |Rivals(s, u)| + |Arrivals(s, Do(s, a), u)|
  {
    RivalsCovered(s, a, u);
    PromotedAreRivals(s, a, u);
    var left, right := Rivals(Do(s, a), u) + NewlyServing(s, Do(s, a)), Rivals(s, u) + Arrivals(s, Do(s, a), u);
    CardLe(left, right);
  }

  function TotalPromoted(run: seq<Sys>): nat {
    if |run| < 2 then 0
    else TotalPromoted(run[..|run| - 1]) + |NewlyServing(run[|run| - 2], run[|run| - 1])|
  }

  function TotalArrivals(run: seq<Sys>, u: UserId): nat {
    if |run| < 2 then 0
    else TotalArrivals(run[..|run| - 1], u) + |Arrivals(run[|run| - 2], run[|run| - 1], u)|
  }

  /** While u waits, the promotions of others are at most the rivals u had at the start and
      the arrivals that landed not behind u. */
  lemma {:induction false} BoundedWait(run: seq<Sys>, acts: seq<Action>, u: UserId)
    requires IsRun(run, acts) && SysOk(run[0]) && WaitsThroughout(run, u)
    ensures TotalPromoted(run) + |Rivals(run[|acts|], u)| <= |Rivals(run[0], u)| + TotalArrivals(run, u)
  {
    if acts != [] {
      var n := |acts| - 1;
      PrefixRun(run, acts);
      BoundedWait(run[..|run| - 1], acts[..n], u);
      RunKeepsSysOk(run, acts);
      assert IsWaiting(run[n], u) && IsWaiting(run[n + 1], u);
      RivalsStep(run[n], acts[n], u);
      assert run[..|run| - 1][n] == run[n];
    }
  }

  // ----- fresh joins never land ahead ---------------------------------------

  /** Every join still to commit is stamped after u's own join. */
  ghost predicate JoinsAreLater(s: Sys, u: UserId) {
    && u in s.db.rows
    && s.db.rows[u].priorityBoost >= 0
    && s.clock > s.db.rows[u].joinedAt
    && forall t, w :: t in s.txs && w in s.txs[t].writes && w.Insert? ==> w.at > s.db.rows[u].joinedAt
  }

  /** A REJOIN commits. */
  predicate CommitsRejoin(s: Sys, a: Action) {
    && Commits(s, a)
    && |s.txs[a.t].writes| == 1
    && s.txs[a.t].writes[0].Change?
    && s.txs[a.t].writes[0].event.Rejoin?
  }

  /** A REJOIN commits and puts another user in WAITING, not behind u. */
  predicate ReturnsNotBehind(s: Sys, a: Action, u: UserId) {
    CommitsRejoin(s, a) && Arrivals(s, Do(s, a), u) != {}
  }

  lemma LaterJoinsStep(s: Sys, a: Action, u: UserId)
    requires SysOk(s) && CanStep(s, a) && JoinsAreLater(s, u)
    requires u in Do(s, a).db.rows && Do(s, a).db.rows[u] == s.db.rows[u]
    ensures JoinsAreLater(Do(s, a), u)
  {
    if a.Statement? {
      StatementTouches(s, a.t, a.choice);
      assert TxOk(s.db, s.txs[a.t]);
      LaterJoinsFrame(s, a.t, Do(s, a), u);
    }
  }

  lemma LaterJoinsFrame(s: Sys, t: TxId, s': Sys, u: UserId)
    requires t in s.txs && KindOk(s.txs[t]) && StatementFrame(s, t, s') && JoinsAreLater(s, u)
    requires u in s'.db.rows && s'.db.rows[u] == s.db.rows[u]
    ensures JoinsAreLater(s', u)
  {
  }

  /** Under a monotone clock a fresh join never lands ahead: every arrival is a REJOIN. */
  lemma ArrivalsAreRejoins(s: Sys, a: Action, u: UserId)
    requires SysOk(s) && CanStep(s, a) && IsWaiting(s, u) && IsWaiting(Do(s, a), u) && JoinsAreLater(s, u)
    ensures |Arrivals(s, Do(s, a), u)| <= if ReturnsNotBehind(s, a, u) then 1 else 0
  {
    var s' := Do(s, a);
    WaitingRowFixed(s, a, u);
    OnlyCommitsChangeTables(s, a);
    if Commits(s, a) {
      var tx := s.txs[a.t];
      assert TxOk(s.db, tx);
      if tx.kind.Promote? {
        ServesMoveUsers(s.db, tx.writes);
        NoneLand(s, s', u);
      } else if !tx.kind.Configure? {
        ApplyOne(s.db, tx.writes);
        OneLands(s, s', u, tx.kind, tx.writes[0]);
      }
    }
  }

  lemma NoneLand(s: Sys, s': Sys, u: UserId)
    requires Users(s'.db.rows, Waiting) <= Users(s.db.rows, Waiting)
    ensures Arrivals(s, s', u) == {}
  {
    forall v | v in NotBehind(s', u) ensures v in Users(s.db.rows, Waiting) {
      assert v in Users(s'.db.rows, Waiting);
    }
  }

  lemma OneLands(s: Sys, s': Sys, u: UserId, kind: Kind, w: Write)
    requires Lands(s.db, w) && Fits(kind, w) && Requestable(kind) && s'.db == Apply(s.db, w)
    requires u in s.db.rows && u in s'.db.rows && s'.db.rows[u] == s.db.rows[u]
    requires s.db.rows[u].priorityBoost >= 0
    requires w.Insert? ==> w.at > s.db.rows[u].joinedAt
    ensures |Arrivals(s, s', u)| <= if w.Change? && w.event.Rejoin? then 1 else 0
  {
    assert Arrivals(s, s', u) <= {w.user};
    CardLe(Arrivals(s, s', u), {w.user});
    if !(w.Change? && w.event.Rejoin?) { assert w.user !in Arrivals(s, s', u); }
  }

  /** The steps of the run in which someone returns not behind u. */
  function TotalReturns(run: seq<Sys>, acts: seq<Action>, u: UserId): nat {
    if acts == [] || |run| != |acts| + 1 then 0
    else
      TotalReturns(run[..|run| - 1], acts[..|acts| - 1], u)
      + if ReturnsNotBehind(run[|acts| - 1], acts[|acts| - 1], u) then 1 else 0
  }

  /** So the wait is bounded by the rivals at the start and the REJOINs since that landed in
      WAITING, not behind u. */
  lemma {:induction false} WaitBoundedByReturns(run: seq<Sys>, acts: seq<Action>, u: UserId)
    requires IsRun(run, acts) && SysOk(run[0]) && WaitsThroughout(run, u) && JoinsAreLater(run[0], u)
    ensures JoinsAreLater(run[|acts|], u)
    ensures TotalPromoted(run) + |Rivals(run[|acts|], u)| <= |Rivals(run[0], u)| + TotalReturns(run, acts, u)
  {
    if acts != [] {
      var n := |acts| - 1;
      PrefixRun(run, acts);
      WaitBoundedByReturns(run[..|run| - 1], acts[..n], u);
      RunKeepsSysOk(run, acts);
      assert IsWaiting(run[n], u) && IsWaiting(run[n + 1], u);
      assert run[..|run| - 1][n] == run[n];
      RivalsStep(run[n], acts[n], u);
      WaitingRowFixed(run[n], acts[n], u);
      LaterJoinsStep(run[n], acts[n], u);
      ArrivalsAreRejoins(run[n], acts[n], u);
    }
  }
}
