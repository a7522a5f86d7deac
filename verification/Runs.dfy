/** Building runs of the interleaved system, one step or one run after another. */
module Runs {
  import opened Interleaving
  import opened QueueTypes

  /** A run of the same system without the Queue row's lock: there a promoter goes on whether or
      not another transaction holds the row. */
  ghost predicate IsUnlockedRun(run: seq<Sys>, acts: seq<Action>) {
    && |run| == |acts| + 1
    && forall i :: 0 <= i < |acts| ==> CanStep(run[i].(lock := None), acts[i]) && run[i + 1] == Do(run[i], acts[i])
  }

  ghost predicate RunsTo(run: seq<Sys>, acts: seq<Action>, s: Sys, s': Sys, locking: bool := true) {
    && (if locking then IsRun(run, acts) else IsUnlockedRun(run, acts))
    && run[0] == s && run[|acts|] == s'
  }

  ghost predicate Reaches(s: Sys, s': Sys, locking: bool := true) {
    exists run, acts :: RunsTo(run, acts, s, s', locking)
  }

  ghost predicate MayStep(s: Sys, a: Action, locking: bool) {
    CanStep(if locking then s else s.(lock := None), a)
  }

  lemma NoStep(s: Sys, locking: bool := true)
    ensures Reaches(s, s, locking)
  {
    assert RunsTo([s], [], s, s, locking);
  }

  lemma ReachesUnlocked(s: Sys, s': Sys)
    requires Reaches(s, s')
    ensures Reaches(s, s', false)
  {
    var run, acts :| RunsTo(run, acts, s, s');
    assert RunsTo(run, acts, s, s', false);
  }

  lemma PrependStep(s: Sys, a: Action, rest: seq<Sys>, more: seq<Action>)
    requires CanStep(s, a) && IsRun(rest, more) && rest[0] == Do(s, a)
    ensures IsRun([s] + rest, [a] + more)
    ensures ([s] + rest)[|[a] + more|] == rest[|more|]
  {
    var run, acts := [s] + rest, [a] + more;
    forall i | 0 <= i < |acts| ensures CanStep(run[i], acts[i]) && run[i + 1] == Do(run[i], acts[i]) {
      if i > 0 { assert acts[i] == more[i - 1] && run[i] == rest[i - 1] && run[i + 1] == rest[i]; }
    }
  }

  lemma AppendStep(run: seq<Sys>, acts: seq<Action>, s: Sys, m: Sys, a: Action, locking: bool := true)
    requires RunsTo(run, acts, s, m, locking) && MayStep(m, a, locking)
    ensures RunsTo(run + [Do(m, a)], acts + [a], s, Do(m, a), locking)
  {
    var run', acts' := run + [Do(m, a)], acts + [a];
    forall i | 0 <= i < |acts'| ensures MayStep(run'[i], acts'[i], locking) && run'[i + 1] == Do(run'[i], acts'[i]) {
      if i < |acts| { assert run'[i] == run[i] && run'[i + 1] == run[i + 1] && acts'[i] == acts[i]; }
    }
  }

  lemma Goes(s: Sys, m: Sys, a: Action, s': Sys, locking: bool := true)
    requires Reaches(s, m, locking) && MayStep(m, a, locking) && s' == Do(m, a)
    ensures Reaches(s, s', locking)
  {
    var run, acts :| RunsTo(run, acts, s, m, locking);
    AppendStep(run, acts, s, m, a, locking);
  }

  lemma OneStep(s: Sys, a: Action, s': Sys, locking: bool := true)
    requires MayStep(s, a, locking) && s' == Do(s, a)
    ensures Reaches(s, s', locking)
  {
    NoStep(s, locking);
    Goes(s, s, a, s', locking);
  }

  lemma {:induction false} Further(s: Sys, m: Sys, s': Sys, locking: bool := true)
    requires Reaches(s, m, locking) && Reaches(m, s', locking)
    ensures Reaches(s, s', locking)
  {
    var run, acts :| RunsTo(run, acts, m, s', locking);
    FurtherBy(s, m, run, acts, |acts|, locking);
  }

  lemma {:induction false} FurtherBy(s: Sys, m: Sys, run: seq<Sys>, acts: seq<Action>, k: nat, locking: bool)
    requires Reaches(s, m, locking) && k <= |acts| < |run| && RunsTo(run, acts, m, run[|acts|], locking)
    ensures Reaches(s, run[k], locking)
  {
    if k > 0 {
      FurtherBy(s, m, run, acts, k - 1, locking);
      assert MayStep(run[k - 1], acts[k - 1], locking) && run[k] == Do(run[k - 1], acts[k - 1]);
      Goes(s, run[k - 1], acts[k - 1], run[k], locking);
    }
  }

  // ----- one transaction left alone -----------------------------------------

  /** The same tables with no transaction under way but t. */
  function Alone(s: Sys, t: TxId): Sys
    requires t in s.txs
  {
    s.(txs := map[t := s.txs[t]], lock := if s.lock == Some(t) then s.lock else None)
  }

  /** Every other transaction can be rolled back. */
  lemma {:induction false} CrashOthers(s: Sys, t: TxId) returns (run: seq<Sys>, acts: seq<Action>)
    requires SysOk(s) && t in s.txs
    ensures RunsTo(run, acts, s, Alone(s, t)) && SysOk(Alone(s, t))
    ensures forall a :: a in acts ==> a.Crash?
    ensures forall i :: 0 <= i < |run| ==> run[i].db == s.db
    decreases s.txs.Keys
  {
    if o :| o in s.txs && o != t {
      EndKeeps(s, o);
      assert o !in End(s, o).txs;
      var rest, more := CrashOthers(End(s, o), t);
      run, acts := [s] + rest, [Crash(o)] + more;
      PrependStep(s, Crash(o), rest, more);
    } else {
      run, acts := [s], [];
      assert s.txs == map[t := s.txs[t]];
    }
  }
}
