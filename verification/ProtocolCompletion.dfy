/** A run that goes all the way: allowed, executed, and recorded as completed. */
module ProtocolCompletion {
  import opened Wrappers
  import opened Schemas
  import opened PolicyRules
  import opened AuditChain
  import opened Events
  import opened Protocol
  import opened ProtocolInvariant
  import opened ProtocolDispatch
  import opened ProtocolTheorems
  import opened ProtocolExamples

  /** No policy has anything to say, and the operation does not raise. */
  function Passing(): Choice { Choice(None, 10, [], "row", false, None) }

  /** Process 0 is the only one there has ever been. */
  ghost predicate Lone(s: State, p: Proc, log: seq<AuditLog>)
  {
    s.procs == map[0 := p] && s.log == log && s.clock == 0
  }

  lemma PassingAllows(j: Job)
    requires Plain(j)
    ensures Decide(10, Passing().results + BudgetResult(j.intent, None), None).outcome == Allow
  {
  }

  lemma EvaluationReached(env: Env, j: Job) returns (actions: seq<Action>, s: State, d: PolicyDecision)
    requires Plain(j)
    ensures Reaches(env, actions, s) && Uncut(actions) && d.outcome == Allow
    ensures Solo(s, Appending(ForEvaluation(j, d, None)), NO_TX)
  {
    hide Decide;
    PassingAllows(j);
    d := Decide(10, Passing().results + BudgetResult(j.intent, None), None);
    assert Run(env, []) == Some(Init());
    assert Uncut([]);
    actions, s := Extend(env, [], Init(), Spawn(0, EvalStart(j)));
    actions, s := Extend(env, actions, s, Step(0, Passing()));
    assert Solo(s, EvalDecide(j, None, None), NO_TX);
    actions, s := Extend(env, actions, s, Step(0, Passing()));
  }

  lemma EntrySaysAllow(j: Job, d: PolicyDecision, r: AuditLog)
    requires RecordOf(ForEvaluation(j, d, None), r) && d.outcome == Allow
    ensures OutcomeStated(r) == Some("allow") && IntentStated(r) == Some(j.intent)
  {
    hide EventOf, EventType, EventPayload;
    EventReadsBack(Evaluated(j.intent, d));
    OutcomeInWords(r, j.intent, d);
  }

  /** The allow is recorded, committed and answered. */
  lemma AnswerReached(env: Env, j: Job)
    returns (actions: seq<Action>, s: State, d: PolicyDecision, r: AuditLog)
    requires Plain(j)
    ensures Reaches(env, actions, s) && Uncut(actions) && d.outcome == Allow
    ensures Lone(s, Proc(Answered(j, d), NO_TX), [r])
    ensures OutcomeStated(r) == Some("allow") && IntentStated(r) == Some(j.intent)
  {
    hide Run, Uncut, Advance, EventPayload, RecordOf, OutcomeStated, IntentStated;
    actions, s, d := EvaluationReached(env, j);
    actions, s, r := SoloAppends(env, actions, s, ForEvaluation(j, d, None), NO_TX);
    EntrySaysAllow(j, d, r);
    assert NO_TX.(entries := NO_TX.entries + [r]) == Tx({}, NoWrite, [r]);
    RouteAdvance(env, s, 0, Passing());
    actions, s := Extend(env, actions, s, Step(0, Passing()));
    assert Solo(s, Committing(Answered(j, d)), Tx({}, NoWrite, [r]));
    CommittingAdvance(env, s, 0, Passing());
    actions, s := Extend(env, actions, s, Step(0, Passing()));
    assert [] + [r] == [r];
  }

  /** The operation has run, and its entry is about to be built. */
  lemma OperationReached(env: Env, j: Job) returns (actions: seq<Action>, s: State, r: AuditLog)
    requires Plain(j) && j.execute
    ensures Reaches(env, actions, s) && Uncut(actions) && Operated(0, j, false) in s.history
    ensures Lone(s, Proc(Appending(ForCompletion(j)), NO_TX), [r])
    ensures OutcomeStated(r) == Some("allow") && IntentStated(r) == Some(j.intent)
  {
    hide Run, Uncut, Advance, OutcomeStated, IntentStated;
    var d;
    actions, s, d, r := AnswerReached(env, j);
    AnsweredAdvance(env, s, 0, Passing());
    actions, s := Extend(env, actions, s, Step(0, Passing()));
    assert Lone(s, Proc(Operating(j), NO_TX), [r]);
    OperatingAdvance(env, s, 0, Passing());
    actions, s := Extend(env, actions, s, Step(0, Passing()));
    assert Lone(s, Proc(CommitLock(j), NO_TX), [r]);
    assert s.history[|s.history| - 1] == Operated(0, j, false);
    CommitLockAdvance(env, s, 0, Passing());
    actions, s := Extend(env, actions, s, Step(0, Passing()));
  }

  lemma EntrySaysCompleted(j: Job, r: AuditLog)
    requires RecordOf(ForCompletion(j), r)
    ensures r.eventType == "execution_completed" && IntentStated(r) == Some(j.intent)
  {
    hide EventOf, EventPayload, IntentOf;
    EventReadsBack(Completed(j.intent));
    IntentRecorded(Completed(j.intent), r);
  }

  lemma CompletionNamed(j: Job)
    requires Plain(j)
    ensures ValidName(ActorFor(ForCompletion(j))) && ValidName(EventType(EventFor(ForCompletion(j))))
  {
    assert |"execution_completed"| == 19;
  }

  /** A plain intent that is allowed is executed once, and the log says both, in words. */
  lemma AllowedIntentCompletes(env: Env, j: Job) returns (actions: seq<Action>, s: State)
    requires Plain(j) && j.execute && Injective(env.crypto.hash)
    ensures Reaches(env, actions, s) && Uncut(actions)
    ensures 0 in s.procs && s.procs[0].pc == Ended(Finished) && Operated(0, j, false) in s.history
    ensures |s.log| == 2 && OutcomeStated(s.log[0]) == Some("allow") && s.log[1].eventType == "execution_completed"
    ensures IntentStated(s.log[0]) == Some(j.intent) && IntentStated(s.log[1]) == Some(j.intent)
  {
    hide Run, Uncut, Advance, Seal, EventPayload, Links, WellLinked, Duplicate, RecordOf, OutcomeStated, IntentStated,
      ValidName;
    var r;
    actions, s, r := OperationReached(env, j);
    var w := ForCompletion(j);
    CompletionNamed(j);
    AppendingAdvance(env, s, 0, Passing());
    SealNumbered(env, actions, s, w);
    SealSays(env.crypto, s.log, w, s.clock);
    assert s.log + [] == s.log;
    actions, s := Extend(env, actions, s, Step(0, Passing()));
    var done := s.procs[0].pc.record;
    assert Lone(s, Proc(Inserting(w, done), NO_TX), [r]);
    ChainAlwaysVerifies(env, actions, s);
    FreshRecord(env.crypto, s.log, done);
    InsertingAdvance(env, s, 0, Passing());
    actions, s := Extend(env, actions, s, Step(0, Passing()));
    assert NO_TX.(entries := NO_TX.entries + [done]) == Tx({}, NoWrite, [done]);
    assert Lone(s, Proc(Committing(Ended(Finished)), Tx({}, NoWrite, [done])), [r]);
    CommittingAdvance(env, s, 0, Passing());
    actions, s := Extend(env, actions, s, Step(0, Passing()));
    assert s.log == [r] + [done];
    EntrySaysCompleted(j, done);
  }
}
