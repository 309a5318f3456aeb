/** When the writes of an evaluation go through, and what they leave in the table: an alert that its
  * evaluation found is resolved whether or not somebody has acknowledged it. */
module AlertWrites {
  import opened Options
  import opened AlertStore
  import opened AlertHistory
  import opened AlertEngine
  import opened AlertGuarantees

  /** An insert is accepted exactly when its id is new and its rule still exists. */
  lemma InsertAcceptedIff(dbClock: int, clock: int, steps: seq<Step>, w: World, k: Key, newId: Id, elapsed: nat)
    requires Execute(Start(dbClock, clock), steps) == Some(w)
    requires k in w.tasks && w.tasks[k].phase.Writing? && w.tasks[k].triggered
    ensures Do(w, Act(k, Stored(newId, elapsed))).Some? <==> newId !in w.sh.issued && k.rule in w.sh.st.rules
  {
    Reachable(dbClock, clock, steps);
    assert KeyOk(w, k);
  }

  /** The resolve of the alert an evaluation found is accepted exactly when that alert is still active,
    * firing or acknowledged, which it is unless its rule was deleted since; and then the key is left
    * without an active alert, and the row with the value of this evaluation and its acknowledgement. */
  lemma ResolveAcceptedIff(dbClock: int, clock: int, steps: seq<Step>, w: World, k: Key, newId: Id, elapsed: nat)
    requires Execute(Start(dbClock, clock), steps) == Some(w)
    requires k in w.tasks && w.tasks[k].phase.Writing? && !w.tasks[k].triggered
    ensures w.tasks[k].phase.found.Some?
    ensures var id, o := w.tasks[k].phase.found.value, Do(w, Act(k, Stored(newId, elapsed)));
            && (o.Some? <==> id in w.sh.st.alerts
                             && (w.sh.st.alerts[id].status == Firing || w.sh.st.alerts[id].status == Acknowledged))
            && (k.rule !in w.sh.deleted ==> o.Some?)
            && (o.Some? ==> ActiveIds(w.sh.st, k) == {id} && ActiveIds(o.value.sh.st, k) == {} && id in o.value.sh.st.alerts)
            && (o.Some? ==> var row, was := o.value.sh.st.alerts[id], w.sh.st.alerts[id];
                  && row.status == Resolved && row.lastValue == w.tasks[k].value
                  && row.resolvedAt == Some(o.value.sh.st.clock) && o.value.sh.st.clock == w.sh.st.clock + elapsed
                  && row.key == was.key == k && row.startedAt == was.startedAt && row.message == was.message
                  && row.acknowledgedAt == was.acknowledgedAt && row.acknowledgedBy == was.acknowledgedBy
                  && row.acknowledgedComment == was.acknowledgedComment)
            && (o.Some? ==> k in o.value.tasks && o.value.tasks[k].phase == Publishing(ResolvedNotice))
  {
    Reachable(dbClock, clock, steps);
    assert KeyOk(w, k);
    var id := w.tasks[k].phase.found.value;
    if k.rule !in w.sh.deleted {
      assert id in ActiveIds(w.sh.st, k);
    }
    if ResolveAlert(w.sh.st, id, w.tasks[k].value, elapsed).Some? {
      assert id in ActiveIds(w.sh.st, k);
      ActiveAfterResolve(w.sh.st, id, w.tasks[k].value, elapsed, k);
    }
  }

  // ---------- A run with an acknowledgement ----------

  /** Long enough for the rule's duration, in nanoseconds. */
  function Wait(t: Task): nat {
    if t.forDuration > 0 then t.forDuration * 1_000_000_000 else 0
  }

  function Check(t: Task): seq<Step> {
    [Begin(t), Act(t.key, Tick(0)), Act(t.key, Tick(Wait(t)))]
  }

  function Fire(k: Key, id: Id): seq<Step> {
    [Act(k, Found(None)), Act(k, Stored(id, 0)), Act(k, Go)]
  }

  /** The next evaluation finds the alert, then resolves it and announces that. */
  function Find(u: Task, id: Id): seq<Step> {
    [Begin(u), Act(u.key, Tick(0)), Act(u.key, Found(Some(id)))]
  }

  function Resolution(k: Key, newId: Id): seq<Step> {
    [Act(k, Stored(newId, 0)), Act(k, Go)]
  }

  lemma CheckedRun(dbClock: int, clock: int, rule: Rule, t: Task) returns (w: World)
    requires t.key.rule == rule.id && t.phase == Starting && t.triggered
    ensures Execute(Start(dbClock, clock), [ChangeRule(rule)] + Check(t)) == Some(w)
    ensures t.key in w.tasks && w.tasks[t.key].phase.Reading? && w.tasks[t.key] == t.(phase := w.tasks[t.key].phase)
    ensures w.sh.st.alerts == map[] && w.sh.issued == {} && t.key.rule in w.sh.st.rules && Log(w.sh, t.key) == []
    ensures w.tasks.Keys == {t.key}
  {
    var w0 := Start(dbClock, clock);
    var w1 := Do(w0, ChangeRule(rule)).value;
    var w2 := Do(w1, Begin(t)).value;
    var w3 := Do(w2, Act(t.key, Tick(0))).value;
    w := Do(w3, Act(t.key, Tick(Wait(t)))).value;
    assert [ChangeRule(rule)] + Check(t) == [ChangeRule(rule), Begin(t), Act(t.key, Tick(0)), Act(t.key, Tick(Wait(t)))];
    RunThrough([w0, w1, w2, w3, w], [ChangeRule(rule), Begin(t), Act(t.key, Tick(0)), Act(t.key, Tick(Wait(t)))]);
  }

  lemma AnnounceRun(w: World, k: Key, notice: Notice) returns (w': World)
    requires k in w.tasks && w.tasks[k].phase == Publishing(notice) && w.tasks[k].key == k && w.tasks.Keys == {k}
    ensures Do(w, Act(k, Go)) == Some(w')
    ensures w'.tasks.Keys == {} && w'.sh.st == w.sh.st && Log(w'.sh, k) == Log(w.sh, k) + [notice]
  {
    w' := Do(w, Act(k, Go)).value;
  }

  lemma FiredRun(w: World, t: Task, id: Id) returns (w': World)
    requires t.key in w.tasks && w.tasks[t.key].phase.Reading? && w.tasks[t.key] == t.(phase := w.tasks[t.key].phase)
    requires t.triggered && w.sh.st.alerts == map[] && w.sh.issued == {} && t.key.rule in w.sh.st.rules
    requires Log(w.sh, t.key) == [] && w.tasks.Keys == {t.key}
    ensures Execute(w, Fire(t.key, id)) == Some(w')
    ensures w'.tasks.Keys == {} && Log(w'.sh, t.key) == [FiringNotice]
    ensures w'.sh.st.alerts.Keys == {id} && w'.sh.st.alerts[id].status == Firing && w'.sh.st.alerts[id].key == t.key
  {
    assert ActiveIds(w.sh.st, t.key) == {};
    var w1 := Do(w, Act(t.key, Found(None))).value;
    var w2 := Do(w1, Act(t.key, Stored(id, 0))).value;
    w' := AnnounceRun(w2, t.key, FiringNotice);
    RunThrough([w, w1, w2, w'], Fire(t.key, id));
  }

  lemma FoundRun(w: World, u: Task, id: Id) returns (w': World)
    requires u.phase == Starting && !u.triggered && w.tasks.Keys == {} && id in ActiveIds(w.sh.st, u.key)
    ensures Execute(w, Find(u, id)) == Some(w')
    ensures w'.sh.st == w.sh.st && w'.sh.sent == w.sh.sent && w'.tasks.Keys == {u.key}
    ensures w'.tasks[u.key].phase.Writing? && w'.tasks[u.key].phase.found == Some(id)
    ensures w'.tasks[u.key] == u.(phase := w'.tasks[u.key].phase)
  {
    var w1 := Do(w, Begin(u)).value;
    var w2 := Do(w1, Act(u.key, Tick(0))).value;
    w' := Do(w2, Act(u.key, Found(Some(id)))).value;
    RunThrough([w, w1, w2, w'], Find(u, id));
  }

  lemma ResolvedRun(w: World, k: Key, id: Id, newId: Id) returns (w': World)
    requires w.tasks.Keys == {k} && w.tasks[k].key == k && !w.tasks[k].triggered
    requires w.tasks[k].phase.Writing? && w.tasks[k].phase.found == Some(id)
    requires w.sh.st.alerts.Keys == {id} && w.sh.st.alerts[id].status == Acknowledged && w.sh.st.alerts[id].key == k
    ensures Execute(w, Resolution(k, newId)) == Some(w')
    ensures ActiveIds(w'.sh.st, k) == {} && Log(w'.sh, k) == Log(w.sh, k) + [ResolvedNotice]
    ensures id in w'.sh.st.alerts
    ensures var row := w'.sh.st.alerts[id];
            && row.status == Resolved && row.lastValue == w.tasks[k].value
            && row.acknowledgedBy == w.sh.st.alerts[id].acknowledgedBy
            && row.acknowledgedComment == w.sh.st.alerts[id].acknowledgedComment
  {
    var w1 := Do(w, Act(k, Stored(newId, 0))).value;
    w' := AnnounceRun(w1, k, ResolvedNotice);
    RunThrough([w, w1, w'], Resolution(k, newId));
  }

  /** For every rule: an alert fires, is acknowledged, and the next evaluation that finds the condition
    * over resolves it, announces that, and keeps who acknowledged it. */
  lemma AcknowledgedIsResolved(dbClock: int, clock: int, rule: Rule, t: Task, u: Task, id: Id, newId: Id,
                               user: string, comment: string)
    requires t.key.rule == rule.id && t.phase == Starting && t.triggered
    requires u.key == t.key && u.phase == Starting && !u.triggered
    ensures var acked := [ChangeRule(rule)] + Check(t) + Fire(t.key, id) + [Ack(id, user, comment, 0)];
            var before := Execute(Start(dbClock, clock), acked);
            var after := Execute(Start(dbClock, clock), acked + Find(u, id) + Resolution(t.key, newId));
            && before.Some? && ActiveIds(before.value.sh.st, t.key) == {id} && before.value.sh.st.alerts[id].status == Acknowledged
            && after.Some? && ActiveIds(after.value.sh.st, t.key) == {} && id in after.value.sh.st.alerts
            && after.value.sh.st.alerts[id].status == Resolved
            && after.value.sh.st.alerts[id].acknowledgedBy == user && after.value.sh.st.alerts[id].acknowledgedComment == comment
            && after.value.sh.st.alerts[id].lastValue == u.value
            && Log(after.value.sh, t.key) == [FiringNotice, ResolvedNotice]
  {
    var start, k := Start(dbClock, clock), t.key;
    var checks := [ChangeRule(rule)] + Check(t);
    var acked := checks + Fire(k, id) + [Ack(id, user, comment, 0)];
    var w1 := CheckedRun(dbClock, clock, rule, t);
    var w2 := FiredRun(w1, t, id);
    var w3 := AcknowledgedRun(w2, k, id, user, comment);
    var w4 := FoundRun(w3, u, id);
    var w5 := ResolvedRun(w4, k, id, newId);
    JoinRuns(start, checks, w1, Fire(k, id), w2);
    JoinRuns(start, checks + Fire(k, id), w2, [Ack(id, user, comment, 0)], w3);
    JoinRuns(start, acked, w3, Find(u, id), w4);
    JoinRuns(start, acked + Find(u, id), w4, Resolution(k, newId), w5);
  }

  lemma AcknowledgedRun(w: World, k: Key, id: Id, user: string, comment: string) returns (w': World)
    requires w.sh.st.alerts.Keys == {id} && w.sh.st.alerts[id].status == Firing && w.sh.st.alerts[id].key == k
    ensures Execute(w, [Ack(id, user, comment, 0)]) == Some(w')
    ensures w'.tasks == w.tasks && w'.sh.sent == w.sh.sent && w'.sh.st.alerts.Keys == {id} && ActiveIds(w'.sh.st, k) == {id}
    ensures var row := w'.sh.st.alerts[id];
            row.status == Acknowledged && row.key == k && row.acknowledgedBy == user && row.acknowledgedComment == comment
  {
    ExecuteOne(w, Ack(id, user, comment, 0));
    w' := Do(w, Ack(id, user, comment, 0)).value;
  }

  lemma JoinRuns(w: World, first: seq<Step>, mid: World, second: seq<Step>, end: World)
    requires Execute(w, first) == Some(mid) && Execute(mid, second) == Some(end)
    ensures Execute(w, first + second) == Some(end)
  {
    ExecuteConcat(w, first, second);
  }
}
