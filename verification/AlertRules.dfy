/** Deleting a rule takes its alerts but not its sustained timestamps, so a rule created again under
  * the same id continues the old streak: one run in which that makes it fire early, and exactly when
  * it does. */
module AlertRules {
  import opened Options
  import opened AlertStore
  import opened AlertHistory
  import opened AlertEngine

  // ---------- Exactly when a re-created rule inherits a streak ----------

  /** No evaluation of `k` begins or acts; rules may come and go. */
  predicate Elsewhere(steps: seq<Step>, k: Key) {
    forall i :: 0 <= i < |steps| ==>
      && (steps[i].Begin? ==> steps[i].task.key != k)
      && (steps[i].Act? ==> steps[i].key != k)
  }

  /** The evaluation and the timestamp of `k` are as they were. */
  ghost predicate Kept(w: World, w': World, k: Key) {
    && (k in w.tasks <==> k in w'.tasks) && (k in w.tasks ==> w'.tasks[k] == w.tasks[k])
    && (k in w.sh.sustained <==> k in w'.sh.sustained) && (k in w.sh.sustained ==> w'.sh.sustained[k] == w.sh.sustained[k])
    && w.sh.clock <= w'.sh.clock
  }

  lemma StepElsewhere(w: World, step: Step, k: Key)
    requires Inv(w) && Do(w, step).Some? && Elsewhere([step], k)
    ensures Inv(Do(w, step).value) && Kept(w, Do(w, step).value, k)
  {
    StepKeepsInv(w, step);
    assert [step][0] == step;
    if step.Act? {
      assert KeyOk(w, step.key);
      AdvanceElsewhere(w.sh, w.tasks[step.key], step.ch, k);
    }
  }

  lemma {:induction false} RunElsewhere(w: World, steps: seq<Step>, k: Key)
    requires Inv(w) && Execute(w, steps).Some? && Elsewhere(steps, k)
    ensures Inv(Execute(w, steps).value) && Kept(w, Execute(w, steps).value, k)
  {
    if steps == [] {
    } else {
      var n := |steps| - 1;
      RunElsewhere(w, steps[..n], k);
      StepElsewhere(Execute(w, steps[..n]).value, steps[n], k);
    }
  }

  /** The evaluation has passed its duration check, and no `for_duration` seconds after its own lock. */
  ghost predicate PassedEarly(w: World, t: Task, lock: int, check: int) {
    t.key in w.tasks && w.tasks[t.key].phase == Reading(lock, check) && check - lock < t.forDuration * SECOND
  }

  /** The part of the evaluation up to its lock, whatever else goes on before it. */
  lemma UpToLock(w: World, t: Task, wait: seq<Step>, e: nat, locked: World)
    requires Inv(w) && t.triggered && Elsewhere(wait, t.key)
    requires Execute(w, [Begin(t)] + wait + [Act(t.key, Tick(e))]) == Some(locked)
    ensures Inv(locked) && t.key in locked.tasks
    ensures var lock := locked.sh.clock;
            var first := if t.key in w.sh.sustained then w.sh.sustained[t.key] else lock;
            locked.tasks[t.key] == t.(phase := Checking(lock, first))
  {
    ExecuteConcat(w, [Begin(t)] + wait, [Act(t.key, Tick(e))]);
    ExecuteConcat(w, [Begin(t)], wait);
    ExecuteOne(w, Begin(t));
    var begun := Do(w, Begin(t)).value;
    StepKeepsInv(w, Begin(t));
    RunElsewhere(begun, wait, t.key);
    var ready := Execute(begun, wait).value;
    ExecuteOne(ready, Act(t.key, Tick(e)));
    StepKeepsInv(ready, Act(t.key, Tick(e)));
  }

  /** From the lock to the duration check. */
  lemma UpToCheck(locked: World, t: Task, lock: int, first: int, pause: seq<Step>, e: nat, checked: World)
    requires Inv(locked) && Elsewhere(pause, t.key)
    requires t.key in locked.tasks && locked.tasks[t.key] == t.(phase := Checking(lock, first))
    requires Execute(locked, pause + [Act(t.key, Tick(e))]) == Some(checked)
    ensures var check := checked.sh.clock;
            && (Met(t.forDuration, first, check) ==> t.key in checked.tasks && checked.tasks[t.key].phase == Reading(lock, check))
            && (!Met(t.forDuration, first, check) ==> t.key !in checked.tasks)
  {
    ExecuteConcat(locked, pause, [Act(t.key, Tick(e))]);
    RunElsewhere(locked, pause, t.key);
    ExecuteOne(Execute(locked, pause).value, Act(t.key, Tick(e)));
  }

  lemma ElsewhereRecreated(rule: Rule, change: seq<Step>, k: Key)
    requires Elsewhere(change, k)
    ensures Elsewhere([RemoveRule(rule.id)] + change + [ChangeRule(rule)], k)
  {}

  /** A rule is deleted and created again while no evaluation of `k` is in flight, and then `k` is
    * evaluated and triggered, with anything else going on in between. The evaluation passes its
    * duration check before the new rule's duration has gone by exactly when the deletion found a
    * timestamp and that is old enough by then. */
  lemma RecreatedRuleIff(dbClock: int, clock: int, steps: seq<Step>, w: World,
                         rule: Rule, k: Key, change: seq<Step>, created: World,
                         t: Task, wait: seq<Step>, e1: nat, locked: World, pause: seq<Step>, e2: nat, checked: World)
    requires Execute(Start(dbClock, clock), steps) == Some(w) && k !in w.tasks && k.rule == rule.id
    requires Elsewhere(change, k) && Elsewhere(wait, k) && Elsewhere(pause, k)
    requires Execute(w, [RemoveRule(rule.id)] + change + [ChangeRule(rule)]) == Some(created)
    requires t.key == k && t.triggered && t.forDuration == rule.forDuration > 0
    requires Execute(created, [Begin(t)] + wait + [Act(k, Tick(e1))]) == Some(locked)
    requires Execute(locked, pause + [Act(k, Tick(e2))]) == Some(checked)
    ensures var lock, check := locked.sh.clock, checked.sh.clock;
            PassedEarly(checked, t, lock, check)
            <==> && k in w.sh.sustained && check - w.sh.sustained[k] >= rule.forDuration * SECOND
                 && check - lock < rule.forDuration * SECOND
  {
    Reachable(dbClock, clock, steps);
    ElsewhereRecreated(rule, change, k);
    RunElsewhere(w, [RemoveRule(rule.id)] + change + [ChangeRule(rule)], k);
    UpToLock(created, t, wait, e1, locked);
    var lock := locked.sh.clock;
    UpToCheck(locked, t, lock, if k in w.sh.sustained then w.sh.sustained[k] else lock, pause, e2, checked);
  }

  // ---------- A run in which it fires early ----------

  /** One nanosecond less than the rule's duration. */
  function Nearly(t: Task): nat {
    if t.forDuration > 0 then t.forDuration * SECOND - 1 else 0
  }

  /** A rule is created, its key is triggered and evaluated until almost `for_duration` later; then the
    * rule is deleted and created again. */
  function Recreation(rule: Rule, t: Task): seq<Step> {
    [ChangeRule(rule), Begin(t), Act(t.key, Tick(0)), Act(t.key, Tick(Nearly(t))), RemoveRule(rule.id), ChangeRule(rule)]
  }

  /** The next evaluation, a nanosecond later. */
  function Evaluation(t: Task, id: Id): seq<Step> {
    [Begin(t), Act(t.key, Tick(0)), Act(t.key, Tick(1)), Act(t.key, Found(None)), Act(t.key, Stored(id, 0))]
  }

  ghost predicate JustRecreated(w: World, t: Task, clock: int) {
    && w.tasks == map[] && w.sh.st.alerts == map[] && t.key.rule in w.sh.st.rules && w.sh.issued == {}
    && w.sh.sustained == map[t.key := clock] && w.sh.clock == clock + Nearly(t)
  }

  lemma RecreationRun(dbClock: int, clock: int, rule: Rule, t: Task) returns (w: World)
    requires t.key.rule == rule.id && t.phase == Starting && t.triggered && t.forDuration > 0
    ensures Execute(Start(dbClock, clock), Recreation(rule, t)) == Some(w) && JustRecreated(w, t, clock)
  {
    var w0 := Start(dbClock, clock);
    var w1 := Do(w0, ChangeRule(rule)).value;
    var w2 := Do(w1, Begin(t)).value;
    var w3 := Do(w2, Act(t.key, Tick(0))).value;
    var w4 := Do(w3, Act(t.key, Tick(Nearly(t)))).value;
    var w5 := Do(w4, RemoveRule(rule.id)).value;
    w := Do(w5, ChangeRule(rule)).value;
    RunThrough([w0, w1, w2, w3, w4, w5, w], Recreation(rule, t));
  }

  /** The duration check of the next evaluation, a nanosecond later. */
  lemma CheckRun(w: World, t: Task, clock: int) returns (w': World)
    requires JustRecreated(w, t, clock) && t.phase == Starting && t.triggered && t.forDuration > 0
    ensures Execute(w, [Begin(t), Act(t.key, Tick(0)), Act(t.key, Tick(1))]) == Some(w')
    ensures w'.sh.st == w.sh.st && w'.sh.issued == {} && w'.sh.clock == w.sh.clock + 1
    ensures t.key in w'.tasks && w'.tasks[t.key] == t.(phase := Reading(w.sh.clock, w'.sh.clock))
  {
    var w1 := Do(w, Begin(t)).value;
    var w2 := Do(w1, Act(t.key, Tick(0))).value;
    w' := Do(w2, Act(t.key, Tick(1))).value;
    RunThrough([w, w1, w2, w'], [Begin(t), Act(t.key, Tick(0)), Act(t.key, Tick(1))]);
  }

  /** Its read and its insert. */
  lemma InsertRun(w: World, t: Task, lock: int, check: int, id: Id) returns (w': World)
    requires t.key in w.tasks && w.tasks[t.key] == t.(phase := Reading(lock, check)) && t.triggered
    requires w.sh.st.alerts == map[] && w.sh.issued == {} && t.key.rule in w.sh.st.rules
    ensures Execute(w, [Act(t.key, Found(None)), Act(t.key, Stored(id, 0))]) == Some(w')
    ensures ActiveIds(w'.sh.st, t.key) == {id} && w'.sh.clock == w.sh.clock
  {
    assert ActiveIds(w.sh.st, t.key) == {};
    var w1 := Do(w, Act(t.key, Found(None))).value;
    w' := Do(w1, Act(t.key, Stored(id, 0))).value;
    ActiveAfterCreate(w.sh.st, id, t.key, t.value, t.message, 0, t.key);
    RunThrough([w, w1, w'], [Act(t.key, Found(None)), Act(t.key, Stored(id, 0))]);
  }

  /** For every rule with a duration: the rule created a second time fires one nanosecond after its
    * creation. */
  lemma RecreatedRuleFiresEarly(dbClock: int, clock: int, rule: Rule, t: Task, id: Id)
    requires t.key.rule == rule.id && t.phase == Starting && t.triggered && t.forDuration == rule.forDuration > 0
    ensures var created := Execute(Start(dbClock, clock), Recreation(rule, t));
            var fired := Execute(Start(dbClock, clock), Recreation(rule, t) + Evaluation(t, id));
            && created.Some? && fired.Some?
            && ActiveIds(created.value.sh.st, t.key) == {} && ActiveIds(fired.value.sh.st, t.key) == {id}
            && fired.value.sh.clock - created.value.sh.clock == 1 < rule.forDuration * SECOND
  {
    var w := RecreationRun(dbClock, clock, rule, t);
    var w1 := CheckRun(w, t, clock);
    var w2 := InsertRun(w1, t, w.sh.clock, w1.sh.clock, id);
    var check := [Begin(t), Act(t.key, Tick(0)), Act(t.key, Tick(1))];
    assert Evaluation(t, id) == check + [Act(t.key, Found(None)), Act(t.key, Stored(id, 0))];
    ExecuteConcat(w, check, [Act(t.key, Found(None)), Act(t.key, Stored(id, 0))]);
    ExecuteConcat(Start(dbClock, clock), Recreation(rule, t), Evaluation(t, id));
  }
}
