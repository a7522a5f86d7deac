/** Service slots and the audit log under every interleaving. */
module SlotSafety {
  import opened QueueTypes
  import opened Database
  import opened Interleaving
  import History
  import Promises

  predicate Commits(s: Sys, a: Action) {
    a.Statement? && a.t in s.txs && s.txs[a.t].pc.Finishing?
  }

  function ServingCount(s: Sys): nat {
    |Users(s.db.rows, Serving)|
  }

  lemma OnlyCommitsChangeTables(s: Sys, a: Action)
    requires CanStep(s, a)
    ensures Do(s, a).db == if Commits(s, a) then Committed(s.db, s.txs[a.t]) else s.db
  {
  }

  // ----- slots --------------------------------------------------------------

  /** A step that raises SERVING is a promotion commit, and it stays within the current slots. */
  lemma SlotSafeStep(s: Sys, a: Action)
    requires SysOk(s) && CanStep(s, a)
    ensures ServingCount(Do(s, a)) > ServingCount(s) ==>
              && Commits(s, a) && s.txs[a.t].kind.Promote?
              && Do(s, a).db.serviceSlots == s.db.serviceSlots
              && ServingCount(Do(s, a)) <= s.db.serviceSlots
  {
    if Commits(s, a) { CommitServing(s, a.t); } else { OnlyCommitsChangeTables(s, a); }
  }

  lemma {:induction false} RunKeepsSysOk(run: seq<Sys>, acts: seq<Action>)
    requires IsRun(run, acts) && SysOk(run[0])
    ensures forall i :: 0 <= i < |run| ==> SysOk(run[i])
  {
    if acts != [] {
      var n := |acts| - 1;
      PrefixRun(run, acts);
      RunKeepsSysOk(run[..|run| - 1], acts[..n]);
      assert run[n] == run[..|run| - 1][n];
      StepKeeps(run[n], acts[n]);
      forall i | 0 <= i < |run| ensures SysOk(run[i]) {
        if i < |run| - 1 { assert run[i] == run[..|run| - 1][i]; }
      }
    }
  }

  lemma PrefixRun(run: seq<Sys>, acts: seq<Action>)
    requires IsRun(run, acts) && acts != []
    ensures IsRun(run[..|run| - 1], acts[..|acts| - 1])
    ensures run[..|run| - 1][0] == run[0]
    ensures CanStep(run[|acts| - 1], acts[|acts| - 1]) && run[|acts|] == Do(run[|acts| - 1], acts[|acts| - 1])
  {
  }

  /** Over a whole run SERVING never passes the largest slot setting of the run, unless it
      was above it at the start; and then it never rises. */
  lemma {:induction false} SlotsOverRun(run: seq<Sys>, acts: seq<Action>, cap: int)
    requires IsRun(run, acts) && SysOk(run[0])
    requires forall i :: 0 <= i < |run| ==> run[i].db.serviceSlots <= cap
    ensures ServingCount(run[|acts|]) <= if ServingCount(run[0]) > cap then ServingCount(run[0]) else cap
    ensures |acts| > 0 && ServingCount(run[|acts| - 1]) >= cap ==>
              ServingCount(run[|acts|]) <= ServingCount(run[|acts| - 1])
  {
    if acts != [] {
      var n := |acts| - 1;
      RunKeepsSysOk(run, acts);
      PrefixRun(run, acts);
      SlotsOverRun(run[..|run| - 1], acts[..n], cap);
      SlotSafeStep(run[n], acts[n]);
    }
  }

  /** The settings commit that lowers the slots below the number being served. */
  predicate CutsBelowServing(s: Sys, a: Action) {
    && Commits(s, a)
    && s.txs[a.t].kind.Configure?
    && OptionalPositive(s.txs[a.t].kind.slots).Some?
    && s.txs[a.t].kind.slots.value < ServingCount(s)
  }

  /** "SERVING never exceeds serviceSlots" survives a step exactly when the step is not such a cut. */
  lemma SlotLimitExact(s: Sys, a: Action)
    requires SysOk(s) && CanStep(s, a) && ServingCount(s) <= s.db.serviceSlots
    ensures ServingCount(Do(s, a)) <= Do(s, a).db.serviceSlots <==> !CutsBelowServing(s, a)
  {
    SlotSafeStep(s, a);
    OnlyCommitsChangeTables(s, a);
    if Commits(s, a) { CommitServing(s, a.t); }
  }

  // ----- the log ------------------------------------------------------------

  lemma StepKeepsSound(s: Sys, a: Action)
    requires SysOk(s) && CanStep(s, a) && History.Sound(s.db)
    ensures History.Sound(Do(s, a).db)
  {
    OnlyCommitsChangeTables(s, a);
    if Commits(s, a) {
      var tx := s.txs[a.t];
      if tx.kind.Configure? {
        forall u: UserId ensures History.ExplainedAt(Do(s, a).db, u) {
          assert History.ExplainedAt(s.db, u);
        }
      } else {
        History.WritesKeepSound(s.db, tx.writes);
      }
    }
  }

  /** In every state of every run from an empty queue, the log explains every row, forms
      one chain per user, and balances every status count. */
  lemma {:induction false} ReachableSound(run: seq<Sys>, acts: seq<Action>)
    requires IsRun(run, acts) && Init(run[0])
    ensures SysOk(run[|acts|]) && History.Sound(run[|acts|].db)
  {
    if acts == [] {
      History.EmptySound(run[0].db);
    } else {
      var n := |acts| - 1;
      PrefixRun(run, acts);
      ReachableSound(run[..|run| - 1], acts[..n]);
      StepKeeps(run[n], acts[n]);
      StepKeepsSound(run[n], acts[n]);
    }
  }

  /** A COMPLETED row is never changed again, by any endpoint, promoter or worker. */
  lemma {:induction false} CompletedForGood(run: seq<Sys>, acts: seq<Action>, u: UserId)
    requires IsRun(run, acts) && u in run[0].db.rows && run[0].db.rows[u].status.Completed?
    ensures u in run[|acts|].db.rows && run[|acts|].db.rows[u] == run[0].db.rows[u]
  {
    if acts != [] {
      var n := |acts| - 1;
      PrefixRun(run, acts);
      CompletedForGood(run[..|run| - 1], acts[..n], u);
      OnlyCommitsChangeTables(run[n], acts[n]);
      if Commits(run[n], acts[n]) {
        Promises.NothingUndone(run[n].db, run[n].txs[acts[n].t].writes, u);
      }
    }
  }
}
