/** Once no new requests arrive, the transactions under way come to an end, and what they
    leave behind needs no further promotion. */
module Progress {
  import opened QueueTypes
  import opened Database
  import opened SetFacts
  import opened Promotion
  import opened Interleaving
  import opened Runs
  import opened SlotSafety
  import opened Wakeups

  // ----- a measure ----------------------------------------------------------

  /** An upper bound on a promotion's statements when there are at most n rows. */
  function TriggerCost(n: nat): nat {
    4 * n + 7
  }

  function PcWeight(pc: Pc): nat {
    match pc
    case Admitting => 6
    case Looking => 5
    case Inserting => 4
    case Checking => 4
    case Fetching(_) => 3
    case Swapping(_) => 2
    case AwaitLock => 2
    case _ => 1
  }

  /** The statements a transaction may still run, with the promotion it may cause. */
  function Weight(tx: Tx, n: nat): nat {
    if tx.kind.Promote? then
      var room := if |tx.writes| <= n then n - |tx.writes| else 0;
      match tx.pc
      case AwaitLock => 4 * n + 6
      case Settings => 4 * n + 5
      case Counting => 4 * room + 4
      case Picking => 4 * room + 3
      case Fetching(_) => 4 * room + 2
      case Swapping(_) => 4 * room + 1
      case _ => 1
    else PcWeight(tx.pc) + if OwesTrigger(tx.kind) then TriggerCost(n) else 0
  }

  ghost function Total(txs: map<TxId, Tx>, n: nat): nat
    decreases |txs|
  {
    if txs == map[] then 0
    else
      var t :| t in txs;
      assert |txs - {t}| < |txs| by { assert txs - {t} == map o | o in txs && o != t :: txs[o]; Shrinks(txs, t); }
      Weight(txs[t], n) + Total(txs - {t}, n)
  }

  lemma Shrinks(txs: map<TxId, Tx>, t: TxId)
    requires t in txs
    ensures |txs - {t}| == |txs| - 1
  {
    assert (txs - {t}).Keys == txs.Keys - {t};
    assert |(txs - {t}).Keys| == |txs.Keys| - 1;
  }

  lemma {:induction false} TotalSplits(txs: map<TxId, Tx>, t: TxId, n: nat)
    requires t in txs
    ensures Total(txs, n) == Weight(txs[t], n) + Total(txs - {t}, n)
    decreases |txs|
  {
    var o :| o in txs && Total(txs, n) == Weight(txs[o], n) + Total(txs - {o}, n);
    if o != t {
      Shrinks(txs, o);
      TotalSplits(txs - {o}, t, n);
      Shrinks(txs, t);
      TotalSplits(txs - {t}, o, n);
      assert txs - {o} - {t} == txs - {t} - {o};
    }
  }

  ghost function Measure(s: Sys, n: nat): nat {
    s.owed * TriggerCost(n) + Total(s.txs, n)
  }

  // ----- how many rows there can be -----------------------------------------

  function Joining(s: Sys): set<TxId> {
    set t | t in s.txs && s.txs[t].kind.Join?
  }

  predicate Bounded(s: Sys, n: nat) {
    |s.db.rows.Keys| + |Joining(s)| <= n
  }

  lemma BoundedStep(s: Sys, a: Action, n: nat)
    requires SysOk(s) && CanStep(s, a) && !a.Begin? && Bounded(s, n)
    ensures Bounded(Do(s, a), n)
  {
    OnlyCommitsChangeTables(s, a);
    var rows', joining' := Do(s, a).db.rows.Keys, Joining(Do(s, a));
    if a.Statement? {
      StatementTouches(s, a.t, a.choice);
      JoiningFrame(s, a.t, Do(s, a));
    }
    if Commits(s, a) {
      CommitRows(s.db, s.txs[a.t]);
      CardLe(joining', Joining(s) - {a.t});
    } else {
      assert joining' <= Joining(s);
      CardLe(joining', Joining(s));
    }
  }

  lemma JoiningFrame(s: Sys, t: TxId, s': Sys)
    requires t in s.txs && StatementFrame(s, t, s')
    ensures Joining(s') <= Joining(s)
    ensures t !in s'.txs ==> Joining(s') <= Joining(s) - {t}
  {
  }

  lemma CommitRows(db: Db, tx: Tx)
    requires TxOk(db, tx) && tx.pc.Finishing?
    ensures |Committed(db, tx).rows.Keys| <= |db.rows.Keys| + if tx.kind.Join? then 1 else 0
  {
    if tx.kind.Promote? {
      ApplyAllRows(db, tx.writes);
      ServesMoveUsers(db, tx.writes);
      assert WriteUsers(tx.writes) <= db.rows.Keys;
      CardLe(Committed(db, tx).rows.Keys, db.rows.Keys);
    } else if !tx.kind.Configure? {
      var w := tx.writes[0];
      ApplyOne(db, tx.writes);
      CardLe(Apply(db, w).rows.Keys, if tx.kind.Join? then db.rows.Keys + {w.user} else db.rows.Keys);
    }
  }

  // ----- every move lowers the measure --------------------------------------

  lemma PromoterRoom(db: Db, tx: Tx)
    requires TxOk(db, tx) && tx.kind.Promote?
    ensures |tx.writes| <= |db.rows.Keys|
  {
    ServesMoveUsers(db, tx.writes);
    WriteCount(tx.writes);
    assert WriteUsers(tx.writes) <= db.rows.Keys;
    CardLe(WriteUsers(tx.writes), db.rows.Keys);
  }

  lemma StatementLowersWeight(s: Sys, t: TxId, choice: UserId, n: nat)
    requires SysOk(s) && CanStep(s, Statement(t, choice)) && |s.db.rows.Keys| <= n
    requires t in DoStatement(s, t, choice).txs
    ensures Weight(DoStatement(s, t, choice).txs[t], n) < Weight(s.txs[t], n)
  {
    var tx := s.txs[t];
    assert TxOk(s.db, tx);
    if !tx.kind.Promote? {
      OtherLowersWeight(s, t, choice, n);
    } else if tx.pc.Swapping? {
      StatementKeeps(s, t, choice);
      SwapLowersWeight(s, t, choice, n);
    } else if tx.pc.Fetching? {
      FetchLowersWeight(s, t, choice, n);
    } else {
      ServerLowersWeight(s, t, choice, n);
    }
  }

  lemma OtherLowersWeight(s: Sys, t: TxId, choice: UserId, n: nat)
    requires t in s.txs && KindOk(s.txs[t]) && !s.txs[t].kind.Promote?
    requires t in DoStatement(s, t, choice).txs
    ensures Weight(DoStatement(s, t, choice).txs[t], n) < Weight(s.txs[t], n)
  {
  }

  lemma SwapLowersWeight(s: Sys, t: TxId, choice: UserId, n: nat)
    requires t in s.txs && s.txs[t].kind.Promote? && s.txs[t].pc.Swapping? && |s.db.rows.Keys| <= n
    requires t in DoStatement(s, t, choice).txs && TxOk(s.db, DoStatement(s, t, choice).txs[t])
    ensures Weight(DoStatement(s, t, choice).txs[t], n) < Weight(s.txs[t], n)
  {
    PromoterRoom(s.db, DoStatement(s, t, choice).txs[t]);
  }

  lemma FetchLowersWeight(s: Sys, t: TxId, choice: UserId, n: nat)
    requires t in s.txs && s.txs[t].kind.Promote? && s.txs[t].pc.Fetching?
    requires t in DoStatement(s, t, choice).txs
    ensures Weight(DoStatement(s, t, choice).txs[t], n) < Weight(s.txs[t], n)
  {
  }

  lemma ServerLowersWeight(s: Sys, t: TxId, choice: UserId, n: nat)
    requires t in s.txs && KindOk(s.txs[t]) && s.txs[t].kind.Promote?
    requires !s.txs[t].pc.Swapping? && !s.txs[t].pc.Fetching?
    requires t in DoStatement(s, t, choice).txs
    ensures Weight(DoStatement(s, t, choice).txs[t], n) < Weight(s.txs[t], n)
  {
  }

  lemma WeightPositive(tx: Tx, n: nat)
    ensures Weight(tx, n) >= 1 + if OwesTrigger(tx.kind) then TriggerCost(n) else 0
  {
  }

  lemma OneMoreOwed(owed: nat, n: nat)
    ensures (owed + 1) * TriggerCost(n) == owed * TriggerCost(n) + TriggerCost(n)
  {
  }

  lemma EndLowersMeasure(s: Sys, t: TxId, s': Sys, n: nat)
    requires t in s.txs && s'.txs == s.txs - {t}
    requires s'.owed == s.owed || (s'.owed == s.owed + 1 && OwesTrigger(s.txs[t].kind))
    ensures Measure(s', n) < Measure(s, n)
  {
    TotalSplits(s.txs, t, n);
    WeightPositive(s.txs[t], n);
    OneMoreOwed(s.owed, n);
  }

  lemma ContinueLowersMeasure(s: Sys, t: TxId, s': Sys, n: nat)
    requires t in s.txs && t in s'.txs && s'.txs - {t} == s.txs - {t} && s'.owed == s.owed
    requires Weight(s'.txs[t], n) < Weight(s.txs[t], n)
    ensures Measure(s', n) < Measure(s, n)
  {
    TotalSplits(s.txs, t, n);
    TotalSplits(s'.txs, t, n);
  }

  lemma TriggerLowersMeasure(s: Sys, t: TxId, n: nat)
    requires t !in s.txs && s.owed > 0
    ensures Measure(Do(s, Trigger(t)), n) < Measure(s, n)
  {
    var txs' := Do(s, Trigger(t)).txs;
    TotalSplits(txs', t, n);
    assert txs' - {t} == s.txs;
    OneMoreOwed(s.owed - 1, n);
  }

  lemma MoveLowersMeasure(s: Sys, a: Action, n: nat)
    requires SysOk(s) && CanStep(s, a) && !a.Begin? && Bounded(s, n)
    ensures Measure(Do(s, a), n) <= Measure(s, n) - if a.Tick? then 0 else 1
  {
    match a
    case Tick(_) =>
    case Trigger(t) => TriggerLowersMeasure(s, t, n);
    case Crash(t) => EndLowersMeasure(s, t, Do(s, a), n);
    case Statement(t, choice) =>
      StatementTouches(s, t, choice);
      if t in Do(s, a).txs { StatementLowersWeight(s, t, choice, n); }
      StatementLowersMeasure(s, t, Do(s, a), n);
  }

  lemma StatementLowersMeasure(s: Sys, t: TxId, s': Sys, n: nat)
    requires t in s.txs && StatementFrame(s, t, s')
    requires t in s'.txs ==> Weight(s'.txs[t], n) < Weight(s.txs[t], n)
    ensures Measure(s', n) < Measure(s, n)
  {
    assert s'.txs - {t} == s.txs - {t};
    if t in s'.txs {
      ContinueLowersMeasure(s, t, s', n);
    } else {
      assert s'.txs == s'.txs - {t};
      EndLowersMeasure(s, t, s', n);
    }
  }

  function Moves(acts: seq<Action>): nat {
    if acts == [] then 0 else Moves(acts[..|acts| - 1]) + if acts[|acts| - 1].Tick? then 0 else 1
  }

  /** A run without new requests makes at most Measure many moves, however they interleave. */
  lemma {:induction false} MovesBounded(run: seq<Sys>, acts: seq<Action>, n: nat)
    requires IsRun(run, acts) && SysOk(run[0]) && Bounded(run[0], n)
    requires forall i :: 0 <= i < |acts| ==> !acts[i].Begin?
    ensures SysOk(run[|acts|]) && Bounded(run[|acts|], n)
    ensures Moves(acts) + Measure(run[|acts|], n) <= Measure(run[0], n)
  {
    if acts != [] {
      var k := |acts| - 1;
      PrefixRun(run, acts);
      MovesBounded(run[..|run| - 1], acts[..k], n);
      StepKeeps(run[k], acts[k]);
      BoundedStep(run[k], acts[k], n);
      MoveLowersMeasure(run[k], acts[k], n);
    }
  }

  // ----- something can always move ------------------------------------------

  predicate Quiet(s: Sys) {
    s.txs == map[] && s.owed == 0
  }

  /** A statement or a trigger, as opposed to the outside world. */
  predicate Internal(a: Action) {
    a.Statement? || a.Trigger?
  }

  /** Unless the system is quiet, some statement can run: nobody waits for ever. */
  lemma SomethingMoves(s: Sys) returns (a: Action)
    requires SysOk(s) && !Quiet(s)
    ensures Internal(a) && CanStep(s, a)
  {
    if s.txs == map[] {
      a := Trigger(0);
    } else if t :| t in s.txs && s.txs[t].pc.Finishing? {
      a := Statement(t, 0);
    } else {
      var t: TxId :| t in s.txs && (s.lock.Some? ==> s.lock == Some(t));
      assert TxOk(s.db, s.txs[t]);
      NobodyElseHolds(s, t);
      var view := View(s.db, s.txs[t]);
      if s.txs[t].pc.Picking? && Users(view.rows, Waiting) != {} {
        BestExists(view.rows);
        var u :| Best(view.rows, u);
        a := Statement(t, u);
      } else {
        a := Statement(t, 0);
      }
    }
  }

  /** With nobody about to commit, only the lock holder can hold rows. */
  lemma NobodyElseHolds(s: Sys, t: TxId)
    requires SysOk(s) && t in s.txs
    requires forall o :: o in s.txs ==> !s.txs[o].pc.Finishing?
    requires s.lock.Some? ==> s.lock == Some(t)
    ensures forall u :: !HeldByOther(s, t, u)
    ensures s.txs[t].pc.AwaitLock? ==> s.lock.None?
  {
    forall o | o in s.txs && o != t ensures s.txs[o].writes == [] {
      assert TxOk(s.db, s.txs[o]);
      assert HoldsLock(s.txs[o]) <==> s.lock == Some(o);
    }
  }

  /** Left to itself, the system comes to rest from every reachable state; and at rest every
      slot is taken or nobody is waiting. */
  lemma {:induction false} ComesToRest(s: Sys, n: nat) returns (run: seq<Sys>, acts: seq<Action>)
    requires SysOk(s) && Attended(s) && Bounded(s, n)
    ensures IsRun(run, acts) && run[0] == s && forall a :: a in acts ==> Internal(a)
    ensures Quiet(run[|acts|]) && !HasWork(run[|acts|].db)
    decreases Measure(s, n)
  {
    if Quiet(s) {
      run, acts := [s], [];
    } else {
      var a := SomethingMoves(s);
      StepKeeps(s, a);
      StepAttended(s, a);
      BoundedStep(s, a, n);
      MoveLowersMeasure(s, a, n);
      var rest, more := ComesToRest(Do(s, a), n);
      run, acts := [s] + rest, [a] + more;
      PrependStep(s, a, rest, more);
    }
  }
}
