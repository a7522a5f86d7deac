/** When one who waits ahead can be overtaken by a pick already made: exactly. */
module Overtaking {
  import opened QueueTypes
  import opened Database
  import opened SetFacts
  import opened Promotion
  import opened Interleaving
  import opened Runs
  import opened Wakeups
  import opened Fairness

  /** The user the lock holder has picked last can still be served. */
  predicate PickStands(s: Sys) {
    && Promoting(s)
    && var tx := s.txs[s.lock.value];
    && match tx.pc
       case Fetching(u) => CanServe(s.db, tx, u)
       case Swapping(w) => CanServe(s.db, tx, w.user)
       case Counting => true
       case Picking => true
       case Finishing => true
       case _ => false
  }

  /** The picks the lock holder has yet to make. */
  function PicksLeft(s: Sys): int {
    if !Promoting(s) || s.txs[s.lock.value].pc.Finishing? then 0
    else s.txs[s.lock.value].slots - |Users(s.db.rows, Serving)| - |Picks(s)|
  }

  /** Waiting users not yet picked. */
  function Unpicked(s: Sys): set<UserId> {
    Users(s.db.rows, Waiting) - Picks(s)
  }

  /** Of some waiting users, those who need not come after a. */
  function NotAfter(rows: map<UserId, Row>, pool: set<UserId>, a: UserId): set<UserId>
    requires pool <= rows.Keys && a in rows
  {
    set v | v in pool && v != a && !Before(rows[a], rows[v])
  }

  /** Some run that leaves the tables alone promotes b in its next step, and not a. */
  ghost predicate CanOvertake(s: Sys, a: UserId, b: UserId) {
    exists m, next :: ReachesQuietly(s, m) && CanStep(m, next)
                      && b in NewlyServing(m, Do(m, next)) && a !in NewlyServing(m, Do(m, next))
  }

  /** By a run in which nothing is committed to the tables. */
  ghost predicate ReachesQuietly(s: Sys, s': Sys) {
    exists run, acts :: RunsTo(run, acts, s, s') && SameTables(run, s)
  }

  ghost predicate SameTables(run: seq<Sys>, s: Sys) {
    forall i :: 0 <= i < |run| ==> run[i].db == s.db
  }

  lemma GoesQuietly(s: Sys, m: Sys, a: Action)
    requires ReachesQuietly(s, m) && CanStep(m, a) && Do(m, a).db == s.db
    ensures ReachesQuietly(s, Do(m, a))
  {
    var run, acts :| RunsTo(run, acts, s, m) && SameTables(run, s);
    AppendStep(run, acts, s, m, a);
    assert SameTables(run + [Do(m, a)], s);
  }

  // ----- what the holder's statements do ------------------------------------

  lemma FetchEffect(s: Sys, t: TxId, choice: UserId)
    requires SysOk(s) && t in s.txs && s.txs[t].kind.Promote? && s.txs[t].pc.Fetching?
    ensures var tx, u := s.txs[t], s.txs[t].pc.target;
            DoStatement(s, t, choice)
            == if CanServe(s.db, tx, u)
               then Continue(s, t, tx.(pc := Swapping(ServeWrite(s.db, u, s.clock))))
               else End(s, t)
  {
    var tx, u := s.txs[t], s.txs[t].pc.target;
    assert TxOk(s.db, tx);
    ApplyAllRows(s.db, tx.writes);
    if u in WriteUsers(tx.writes) {
      ServedUser(s.db, tx.writes, u);
    } else if u in s.db.rows {
      assert View(s.db, tx).rows[u] == s.db.rows[u];
    }
  }

  lemma SwapEffect(s: Sys, t: TxId, choice: UserId)
    requires SysOk(s) && t in s.txs && s.txs[t].kind.Promote? && s.txs[t].pc.Swapping?
    ensures var tx, w := s.txs[t], s.txs[t].pc.write;
            && (CanServe(s.db, tx, w.user) ==>
                  && DoStatement(s, t, choice) == Continue(s, t, tx.(pc := Counting, writes := tx.writes + [w]))
                  && WriteUsers(tx.writes + [w]) == WriteUsers(tx.writes) + {w.user})
            && (!CanServe(s.db, tx, w.user) ==> DoStatement(s, t, choice) == End(s, t))
  {
    var tx, w := s.txs[t], s.txs[t].pc.write;
    assert TxOk(s.db, tx);
    ApplyAllRows(s.db, tx.writes);
    WriteUsersSnoc(tx.writes, w);
    if w.user in WriteUsers(tx.writes) { ServedUser(s.db, tx.writes, w.user); }
    assert Lands(View(s.db, tx), w) <==> CanServe(s.db, tx, w.user);
  }

  lemma CountEffect(s: Sys, t: TxId, choice: UserId)
    requires SysOk(s) && t in s.txs && s.txs[t].kind.Promote? && s.txs[t].pc.Counting?
    ensures var tx := s.txs[t];
            var full := |Users(s.db.rows, Serving)| + |tx.writes| >= tx.slots;
            DoStatement(s, t, choice) == Continue(s, t, tx.(pc := if full then Finishing else Picking))
  {
    assert TxOk(s.db, s.txs[t]);
    ServesMoveUsers(s.db, s.txs[t].writes);
  }

  // ----- a plan for the remaining picks -------------------------------------

  /** The picks q can be made from the pool one after the other, each the best of those left. */
  ghost predicate Pickable(rows: map<UserId, Row>, pool: set<UserId>, q: seq<UserId>)
    requires pool <= rows.Keys
    decreases q
  {
    q == [] ||
    (&& q[0] in pool
     && (forall v :: v in pool ==> !Before(rows[v], rows[q[0]]))
     && Pickable(rows, pool - {q[0]}, q[1..]))
  }

  /** With enough users who need not come after a, n picks can do without a. */
  lemma {:induction false} PicksWithout(rows: map<UserId, Row>, pool: set<UserId>, a: UserId, n: nat)
    returns (q: seq<UserId>)
    requires pool <= rows.Keys && a in pool && n <= |NotAfter(rows, pool, a)|
    ensures |q| == n && Pickable(rows, pool, q) && a !in q
    decreases n
  {
    q := [];
    if n > 0 {
      var others := NotAfter(rows, pool, a);
      var u := LeastOf(rows, others);
      assert NotAfter(rows, pool - {u}, a) == others - {u};
      var rest := PicksWithout(rows, pool - {u}, a, n - 1);
      q := [u] + rest;
      assert q[1..] == rest;
    }
  }

  /** The lock holder can make exactly the picks q and then commit. */
  ghost predicate Plan(s: Sys, q: seq<UserId>) {
    && PickStands(s)
    && Pickable(s.db.rows, Unpicked(s), q)
    && |q| == if PicksLeft(s) > 0 then PicksLeft(s) else 0
  }

  function PcRank(pc: Pc): nat {
    match pc
    case Fetching(_) => 3
    case Swapping(_) => 2
    case Counting => 1
    case _ => 0
  }

  function StatementsLeft(s: Sys, q: seq<UserId>): nat {
    if !Promoting(s) then 0 else 4 * |q| + PcRank(s.txs[s.lock.value].pc)
  }

  /** One statement further, with the plan q' for what then remains. */
  ghost predicate Nearer(s: Sys, q: seq<UserId>, s': Sys, q': seq<UserId>) {
    && s'.db == s.db && s'.lock == s.lock
    && Plan(s', q')
    && Picks(s') + Elements(q') == Picks(s) + Elements(q)
    && StatementsLeft(s', q') < StatementsLeft(s, q)
  }

  /** Nobody else holds a row. */
  predicate OnlyHolder(s: Sys) {
    s.lock.Some? && s.txs.Keys == {s.lock.value}
  }

  /** The holder goes on with the same picks and the same plan. */
  lemma SamePlan(s: Sys, t: TxId, tx: Tx, q: seq<UserId>)
    requires s.lock == Some(t) && Plan(s, q) && tx.kind.Promote?
    requires var s' := Continue(s, t, tx);
             && Picks(s') == Picks(s) && PickStands(s')
             && (PicksLeft(s') == PicksLeft(s) || (PicksLeft(s') <= 0 && PicksLeft(s) <= 0))
    requires PcRank(tx.pc) < PcRank(s.txs[t].pc)
    ensures Nearer(s, q, Continue(s, t, tx), q)
  {
  }

  lemma FetchGoesOn(s: Sys, t: TxId, q: seq<UserId>)
    requires SysOk(s) && s.lock == Some(t) && Plan(s, q) && s.txs[t].pc.Fetching?
    ensures Nearer(s, q, DoStatement(s, t, 0), q)
  {
    FetchEffect(s, t, 0);
    SamePlan(s, t, s.txs[t].(pc := Swapping(ServeWrite(s.db, s.txs[t].pc.target, s.clock))), q);
  }

  lemma SwapKeepsPicks(s: Sys, t: TxId)
    requires s.lock == Some(t) && t in s.txs && s.txs[t].kind.Promote? && s.txs[t].pc.Swapping?
    ensures var tx := s.txs[t];
            var s' := Continue(s, t, tx.(pc := Counting, writes := tx.writes + [tx.pc.write]));
            Picks(s') == Picks(s) && PicksLeft(s') == PicksLeft(s) && PickStands(s')
  {
    WriteUsersSnoc(s.txs[t].writes, s.txs[t].pc.write);
  }

  lemma SwapGoesOn(s: Sys, t: TxId, q: seq<UserId>)
    requires SysOk(s) && s.lock == Some(t) && Plan(s, q) && s.txs[t].pc.Swapping?
    ensures Nearer(s, q, DoStatement(s, t, 0), q)
  {
    SwapEffect(s, t, 0);
    SwapKeepsPicks(s, t);
    SamePlan(s, t, s.txs[t].(pc := Counting, writes := s.txs[t].writes + [s.txs[t].pc.write]), q);
  }

  /** Counting, the picks are the users written so far. */
  lemma CountedPicks(s: Sys, t: TxId)
    requires SysOk(s) && s.lock == Some(t) && t in s.txs && s.txs[t].kind.Promote? && s.txs[t].pc.Counting?
    ensures |Picks(s)| == |s.txs[t].writes|
  {
    assert TxOk(s.db, s.txs[t]);
    WriteCount(s.txs[t].writes);
  }

  lemma CountGoesOn(s: Sys, t: TxId, q: seq<UserId>)
    requires SysOk(s) && s.lock == Some(t) && Plan(s, q) && s.txs[t].pc.Counting?
    ensures Nearer(s, q, DoStatement(s, t, 0), q)
  {
    CountEffect(s, t, 0);
    CountedPicks(s, t);
    SamePlan(s, t, DoStatement(s, t, 0).txs[t], q);
  }

  /** The plan's next pick is a best user of the holder's view. */
  lemma PlannedPickIsBest(s: Sys, t: TxId, q: seq<UserId>)
    requires SysOk(s) && s.lock == Some(t) && Plan(s, q) && s.txs[t].pc.Picking?
    ensures q != [] && Best(View(s.db, s.txs[t]).rows, q[0])
  {
    var tx := s.txs[t];
    assert TxOk(s.db, tx);
    ServesMoveSets(s.db, tx.writes);
    ApplyAllRows(s.db, tx.writes);
    WriteCount(tx.writes);
  }

  lemma NextInPlan(s: Sys, t: TxId, q: seq<UserId>)
    requires s.lock == Some(t) && Plan(s, q) && s.txs[t].pc.Picking? && q != []
    requires Picks(Continue(s, t, s.txs[t].(pc := Fetching(q[0])))) == Picks(s) + {q[0]}
    ensures Nearer(s, q, Continue(s, t, s.txs[t].(pc := Fetching(q[0]))), q[1..])
  {
    var s' := Continue(s, t, s.txs[t].(pc := Fetching(q[0])));
    assert Unpicked(s') == Unpicked(s) - {q[0]};
    assert Elements(q) == {q[0]} + Elements(q[1..]);
    assert |Picks(s')| == |Picks(s)| + 1;
  }

  lemma PickGoesOn(s: Sys, t: TxId, q: seq<UserId>)
    requires SysOk(s) && s.lock == Some(t) && Plan(s, q) && s.txs[t].pc.Picking?
    requires q != [] && Best(View(s.db, s.txs[t]).rows, q[0])
    ensures CanStep(s, Statement(t, q[0])) && Nearer(s, q, DoStatement(s, t, q[0]), q[1..])
  {
    PickEffect(s, t, q[0], q[0]);
    NextInPlan(s, t, q);
  }

  lemma PlanGoesOn(s: Sys, t: TxId, q: seq<UserId>) returns (a: Action, q': seq<UserId>)
    requires SysOk(s) && s.lock == Some(t) && OnlyHolder(s) && Plan(s, q) && !s.txs[t].pc.Finishing?
    ensures a.Statement? && a.t == t && CanStep(s, a)
    ensures Nearer(s, q, Do(s, a), q')
  {
    a, q' := Statement(t, 0), q;
    if s.txs[t].pc.Fetching? {
      FetchGoesOn(s, t, q);
    } else if s.txs[t].pc.Swapping? {
      SwapGoesOn(s, t, q);
    } else if s.txs[t].pc.Counting? {
      CountGoesOn(s, t, q);
    } else {
      PlannedPickIsBest(s, t, q);
      PickGoesOn(s, t, q);
      a, q' := Statement(t, q[0]), q[1..];
    }
  }

  lemma HolderStays(s: Sys, t: TxId, choice: UserId)
    requires SysOk(s) && s.lock == Some(t) && OnlyHolder(s) && CanStep(s, Statement(t, choice))
    requires DoStatement(s, t, choice).lock == s.lock
    ensures SysOk(DoStatement(s, t, choice)) && OnlyHolder(DoStatement(s, t, choice))
  {
    StatementKeeps(s, t, choice);
    StatementTouches(s, t, choice);
  }

  /** The holder carries out the plan and promotes exactly its picks. */
  lemma {:induction false} PlanSucceeds(s: Sys, m: Sys, q: seq<UserId>) returns (m': Sys, next: Action)
    requires ReachesQuietly(s, m) && SysOk(m) && m.db == s.db && OnlyHolder(m) && Plan(m, q)
    ensures ReachesQuietly(s, m') && CanStep(m', next)
    ensures NewlyServing(m', Do(m', next)) == Picks(m) + Elements(q)
    decreases StatementsLeft(m, q)
  {
    var t := m.lock.value;
    if m.txs[t].pc.Finishing? {
      m', next := m, Statement(t, 0);
      PromotedAreServed(m, next);
    } else {
      var a, q' := PlanGoesOn(m, t, q);
      HolderStays(m, t, a.choice);
      GoesQuietly(s, m, a);
      m', next := PlanSucceeds(s, Do(m, a), q');
    }
  }

  lemma HolderAlone(s: Sys)
    requires SysOk(s) && Promoting(s)
    ensures var m := Alone(s, s.lock.value);
            ReachesQuietly(s, m) && SysOk(m) && OnlyHolder(m) && m.db == s.db
            && Picks(m) == Picks(s) && PicksLeft(m) == PicksLeft(s) && (PickStands(s) ==> PickStands(m))
  {
    var run, acts := CrashOthers(s, s.lock.value);
    assert SameTables(run, s);
  }

  /** If the pick stands and enough others need not come after a, b is promoted without a. */
  lemma OthersFillSlots(s: Sys, a: UserId, b: UserId)
    requires SysOk(s) && Outranks(s, a, b) && !NotPassedOver(s, a, b)
    requires PickStands(s) && PicksLeft(s) <= |NotAfter(s.db.rows, Unpicked(s), a)|
    ensures CanOvertake(s, a, b)
  {
    HolderAlone(s);
    var m := Alone(s, s.lock.value);
    var q := PicksWithout(s.db.rows, Unpicked(s), a, if PicksLeft(s) > 0 then PicksLeft(s) else 0);
    assert Plan(m, q);
    var m', next := PlanSucceeds(s, m, q);
    assert b in NewlyServing(m', Do(m', next)) && a !in NewlyServing(m', Do(m', next));
  }

  // ----- and only then ------------------------------------------------------

  /** The holder that had passed a over in s is still at work in s', and has since picked only
      users who need not come after a. */
  ghost predicate StillPassing(s: Sys, s': Sys, a: UserId)
    requires a in s.db.rows
  {
    && Promoting(s) && Promoting(s') && s'.lock == s.lock && s'.db == s.db
    && var tx, tx' := s.txs[s.lock.value], s'.txs[s.lock.value];
    && tx'.slots == tx.slots
    && (tx' == tx || PickStands(s))
    && (tx'.pc.Finishing? && !tx.pc.Finishing? ==> |Users(s.db.rows, Serving)| + |tx'.writes| >= tx.slots)
    && Picks(s) <= Picks(s') && Picks(s') - Picks(s) <= NotAfter(s.db.rows, Unpicked(s), a)
    && a !in Picks(s')
  }

  /** What can have become of a holder that had passed a over in favour of b. */
  ghost predicate Outcome(s: Sys, s': Sys, a: UserId, b: UserId)
    requires a in s.db.rows
  {
    NotPassedOver(s', a, b) || StillPassing(s, s', a)
  }

  lemma OutcomeStep(s: Sys, m: Sys, act: Action, a: UserId, b: UserId)
    requires SysOk(m) && CanStep(m, act) && m.db == s.db && Do(m, act).db == s.db
    requires Outranks(s, a, b) && b in Picks(s) && Outcome(s, m, a, b)
    ensures Outcome(s, Do(m, act), a, b)
  {
    if NotPassedOver(m, a, b) {
      StepNotPassedOver(m, act, a, b);
    } else if act.Statement? && act.t == s.lock.value {
      HolderStep(s, m, act.t, act.choice, a, b);
    } else {
      OthersLeaveHolder(s, m, act, a);
    }
  }

  lemma OthersLeaveHolder(s: Sys, m: Sys, act: Action, a: UserId)
    requires SysOk(m) && CanStep(m, act) && Do(m, act).db == s.db
    requires a in s.db.rows && StillPassing(s, m, a)
    requires !(act.Statement? && act.t == s.lock.value)
    ensures StillPassing(s, Do(m, act), a) || Picks(Do(m, act)) == {}
  {
    var t, m' := s.lock.value, Do(m, act);
    if act.Statement? { StatementTouches(m, act.t, act.choice); }
    if t in m'.txs { assert m'.txs[t] == m.txs[t]; }
  }

  lemma EndedHolder(m: Sys, t: TxId)
    requires m.lock == Some(t)
    ensures Picks(End(m, t)) == {}
  {
  }

  lemma HolderStep(s: Sys, m: Sys, t: TxId, choice: UserId, a: UserId, b: UserId)
    requires SysOk(m) && CanStep(m, Statement(t, choice)) && m.db == s.db && s.lock == Some(t)
    requires Outranks(s, a, b) && b in Picks(s) && StillPassing(s, m, a)
    ensures Outcome(s, DoStatement(m, t, choice), a, b)
  {
    var tx := m.txs[t];
    assert TxOk(m.db, tx);
    EndedHolder(m, t);
    match tx.pc
    case Fetching(u) =>
      FetchEffect(m, t, choice);
      if CanServe(m.db, tx, u) {
        HolderContinues(s, m, t, tx.(pc := Swapping(ServeWrite(m.db, u, m.clock))), a);
      }
    case Swapping(w) =>
      SwapEffect(m, t, choice);
      if CanServe(m.db, tx, w.user) {
        HolderContinues(s, m, t, tx.(pc := Counting, writes := tx.writes + [w]), a);
      }
    case Counting =>
      CountEffect(m, t, choice);
      HolderContinues(s, m, t, DoStatement(m, t, choice).txs[t], a);
    case Picking => PickOutcome(s, m, t, choice, a);
    case Finishing => EndedHolder(m, t);
    case _ =>
  }

  /** The holder goes on with the same picks. */
  lemma HolderContinues(s: Sys, m: Sys, t: TxId, tx: Tx, a: UserId)
    requires m.db == s.db && s.lock == Some(t) && a in s.db.rows && StillPassing(s, m, a) && PickStands(m)
    requires tx.kind.Promote? && tx.slots == m.txs[t].slots && !m.txs[t].pc.Finishing?
    requires Picks(Continue(m, t, tx)) == Picks(m)
    requires tx.pc.Finishing? ==> |Users(s.db.rows, Serving)| + |tx.writes| >= tx.slots
    ensures StillPassing(s, Continue(m, t, tx), a)
  {
  }

  lemma PickOutcome(s: Sys, m: Sys, t: TxId, choice: UserId, a: UserId)
    requires SysOk(m) && CanStep(m, Statement(t, choice)) && m.db == s.db && s.lock == Some(t)
    requires IsWaiting(s, a) && StillPassing(s, m, a) && m.txs[t].pc.Picking?
    ensures StillPassing(s, DoStatement(m, t, choice), a) || a in Picks(DoStatement(m, t, choice))
  {
    PickEffect(m, t, choice, a);
    if choice != a { HolderPicks(s, m, t, choice, a); }
  }

  lemma PickEffect(s: Sys, t: TxId, choice: UserId, a: UserId)
    requires SysOk(s) && CanStep(s, Statement(t, choice)) && s.lock == Some(t)
    requires s.txs[t].kind.Promote? && s.txs[t].pc.Picking? && IsWaiting(s, a) && a !in Picks(s)
    ensures choice in Unpicked(s) && !Before(s.db.rows[a], s.db.rows[choice])
    ensures DoStatement(s, t, choice) == Continue(s, t, s.txs[t].(pc := Fetching(choice)))
    ensures Picks(DoStatement(s, t, choice)) == Picks(s) + {choice}
  {
    var tx := s.txs[t];
    assert TxOk(s.db, tx);
    ServesMoveSets(s.db, tx.writes);
    assert a in Users(View(s.db, tx).rows, Waiting);
    PickIsBest(s, Statement(t, choice), a);
  }

  lemma HolderPicks(s: Sys, m: Sys, t: TxId, u: UserId, a: UserId)
    requires m.db == s.db && s.lock == Some(t) && a in s.db.rows && StillPassing(s, m, a) && PickStands(m)
    requires !m.txs[t].pc.Finishing?
    requires Picks(Continue(m, t, m.txs[t].(pc := Fetching(u)))) == Picks(m) + {u}
    requires u in Unpicked(m) && u != a && !Before(s.db.rows[a], s.db.rows[u])
    ensures StillPassing(s, Continue(m, t, m.txs[t].(pc := Fetching(u))), a)
  {
  }

  lemma {:induction false} OutcomeOverRun(s: Sys, run: seq<Sys>, acts: seq<Action>, a: UserId, b: UserId, i: nat)
    requires IsRun(run, acts) && run[0] == s && SameTables(run, s) && i <= |acts|
    requires SysOk(s) && Outranks(s, a, b) && !NotPassedOver(s, a, b)
    ensures SysOk(run[i]) && Outcome(s, run[i], a, b)
  {
    if i > 0 {
      OutcomeOverRun(s, run, acts, a, b, i - 1);
      StepKeeps(run[i - 1], acts[i - 1]);
      assert run[i - 1].db == s.db && run[i].db == s.db;
      OutcomeStep(s, run[i - 1], acts[i - 1], a, b);
    }
  }

  lemma OvertakingNeedsOthers(s: Sys, m: Sys, next: Action, a: UserId, b: UserId)
    requires SysOk(m) && CanStep(m, next) && m.db == s.db && Outranks(s, a, b) && b in Picks(s)
    requires Outcome(s, m, a, b)
    requires b in NewlyServing(m, Do(m, next)) && a !in NewlyServing(m, Do(m, next))
    ensures PickStands(s) && PicksLeft(s) <= |NotAfter(s.db.rows, Unpicked(s), a)|
  {
    PromotedAreServed(m, next);
    if NotPassedOver(m, a, b) {
      StepNotPassedOver(m, next, a, b);
    } else {
      var tx := m.txs[next.t];
      assert TxOk(m.db, tx);
      WriteCount(tx.writes);
      CardLe(Picks(m) - Picks(s), NotAfter(s.db.rows, Unpicked(s), a));
    }
  }

  /** While a waits strictly ahead of b: some run that leaves the tables alone promotes b without
      a exactly when the lock holder has picked b and not a, its last pick can still be served,
      and it can make its remaining picks from others who need not come after a. */
  lemma OvertakenExactly(s: Sys, a: UserId, b: UserId)
    requires SysOk(s) && Outranks(s, a, b)
    ensures CanOvertake(s, a, b)
       <==> && !NotPassedOver(s, a, b)
            && PickStands(s) && PicksLeft(s) <= |NotAfter(s.db.rows, Unpicked(s), a)|
  {
    if CanOvertake(s, a, b) {
      var m, next :| ReachesQuietly(s, m) && CanStep(m, next)
                     && b in NewlyServing(m, Do(m, next)) && a !in NewlyServing(m, Do(m, next));
      var run, acts :| RunsTo(run, acts, s, m) && SameTables(run, s);
      assert m == run[|acts|];
      if NotPassedOver(s, a, b) {
        NoOvertaking(run, acts, a, b, next);
      } else {
        OutcomeOverRun(s, run, acts, a, b, |acts|);
        OvertakingNeedsOthers(s, m, next, a, b);
      }
    }
    if !NotPassedOver(s, a, b) && PickStands(s) && PicksLeft(s) <= |NotAfter(s.db.rows, Unpicked(s), a)| {
      OthersFillSlots(s, a, b);
    }
  }
}
