/** What never changes once it is there: how any two points of a run relate. */
module ProtocolHistory {
  import opened Wrappers
  import opened Protocol
  import opened ProtocolInvariant
  import opened ProtocolStability
  import opened ProtocolSteps
  import opened ProtocolCommit
  import opened ProtocolRuns

  lemma EvolvesTransitive(r: State, s: State, t: State)
    requires Evolves(r, s) && Evolves(s, t)
    ensures Evolves(r, t)
  {
    assert t.log[..|s.log|][..|r.log|] == t.log[..|r.log|];
    forall id | id in r.hitls
      ensures id in t.hitls && t.hitls[id].key == r.hitls[id].key && t.hitls[id].expiresAt == r.hitls[id].expiresAt
      ensures Terminal(r.hitls[id].status) ==> t.hitls[id] == r.hitls[id]
    {
      assert id in s.hitls;
    }
  }

  lemma GoodEvolves(env: Env, s: State, t: State, pid: nat)
    requires Good(env, s, t, pid)
    ensures Evolves(s, t)
  {
    var hs :| GoodStep(env, s, t, pid, hs);
    QuietEvolves(s, t, hs);
  }

  lemma CommitStepEvolves(env: Env, s: State, pid: nat, next: Pc)
    requires Inv(env, s) && pid in s.procs && s.procs[pid].pc == Committing(next)
    ensures Evolves(s, CommitTx(s, pid, next))
  {
    KnownHere(env, s, pid);
    CommitExplained(env, s, s.procs[pid]);
    CommitPublishes(s, pid, next);
    CommitEvolves(env, s, CommitTx(s, pid, next), s.procs[pid].tx);
  }

  lemma AdvanceEvolves(env: Env, s: State, pid: nat, c: Choice)
    requires Inv(env, s) && Advance(env, s, pid, c).Some?
    ensures Evolves(s, Advance(env, s, pid, c).value)
  {
    hide Inv, Good, Evolves;
    AdvanceFrom(env, s, pid, c);
    if s.procs[pid].pc.Committing? {
      CommitStepEvolves(env, s, pid, s.procs[pid].pc.next);
    } else {
      KnownHere(env, s, pid);
      InvTables(env, s);
      AdvanceGood(env, s, pid, c);
      GoodEvolves(env, s, Advance(env, s, pid, c).value, pid);
    }
  }

  lemma DoEvolves(env: Env, s: State, a: Action)
    requires Inv(env, s) && Do(env, s, a).Some?
    ensures Evolves(s, Do(env, s, a).value)
  {
    hide Inv, Advance;
    var t := Do(env, s, a).value;
    match a
    case Step(pid, c) => AdvanceEvolves(env, s, pid, c);
    case _ =>
      assert t.history == s.history + [];
      QuietEvolves(s, t, []);
  }

  lemma LongerRun(env: Env, before: seq<Action>, after: seq<Action>, t: State)
    requires after != [] && Reaches(env, before + after, t)
    ensures var a := before + after[..|after| - 1];
      Run(env, a).Some? && Reaches(env, a, Run(env, a).value)
        && Do(env, Run(env, a).value, after[|after| - 1]) == Some(t)
  {
    hide Do;
    var all := before + after;
    assert all[..|all| - 1] == before + after[..|after| - 1];
    assert all[|all| - 1] == after[|after| - 1];
  }

  lemma EvolvesReflexive(s: State)
    ensures Evolves(s, s)
  {
  }

  /** Of any two points of a run, the later one has grown out of the earlier one. */
  lemma {:induction false} RunEvolves(env: Env, before: seq<Action>, s: State, after: seq<Action>, t: State)
    requires Reaches(env, before, s) && Reaches(env, before + after, t)
    ensures Evolves(s, t)
  {
    hide Do, Inv, Evolves;
    if after == [] {
      assert before + after == before;
      EvolvesReflexive(s);
    } else {
      var n := |after| - 1;
      LongerRun(env, before, after, t);
      var r := Run(env, before + after[..n]).value;
      RunEvolves(env, before, s, after[..n], r);
      InvariantHolds(env, before + after[..n], r);
      DoEvolves(env, r, after[n]);
      EvolvesTransitive(s, r, t);
    }
  }
}
