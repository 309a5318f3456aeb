/** The engine in the source's own control flow: the loops over the rules and the two process
  * methods, each proved to be a run of the atomic actions that AlertEngine interleaves. */
module AlertCode {
  import opened Options
  import opened Traces
  import opened AlertStore
  import opened AlertHistory
  import opened AlertEngine

  // ---------- One evaluation alone ----------

  function Then(o: Outcome, ch: Choice): Outcome {
    match o
    case Blocked => Blocked
    case Moved(sh, t) => Advance(sh, t, ch)
  }

  function Stepper(): (Outcome, Choice) -> Outcome {
    (o: Outcome, ch: Choice) => Then(o, ch)
  }

  /** One evaluation acting alone, answered by `trace`. */
  function Solo(sh: Shared, t: Task, trace: seq<Choice>): Outcome {
    Fold(Stepper(), Moved(sh, t), trace)
  }

  lemma SoloOne(sh: Shared, t: Task, ch: Choice)
    ensures Solo(sh, t, [ch]) == Advance(sh, t, ch)
  {
    FoldOne(Stepper(), Moved(sh, t), ch);
  }

  lemma SoloStep(sh: Shared, t: Task, trace: seq<Choice>, ch: Choice)
    requires Solo(sh, t, trace).Moved?
    ensures var m := Solo(sh, t, trace); Solo(sh, t, trace + [ch]) == Advance(m.sh, m.t, ch)
  {
    FoldSnoc(Stepper(), Moved(sh, t), trace, ch);
  }

  lemma SoloConcat(sh: Shared, t: Task, first: seq<Choice>, second: seq<Choice>)
    requires Solo(sh, t, first).Moved?
    ensures var m := Solo(sh, t, first); Solo(sh, t, first + second) == Solo(m.sh, m.t, second)
  {
    FoldConcat(Stepper(), Moved(sh, t), first, second);
  }

  function Acts(k: Key, trace: seq<Choice>): seq<Step> {
    seq(|trace|, i requires 0 <= i < |trace| => Act(k, trace[i]))
  }

  lemma {:induction false} SoloKeepsKey(sh: Shared, t: Task, trace: seq<Choice>)
    requires Solo(sh, t, trace).Moved?
    ensures Solo(sh, t, trace).t.key == t.key
  {
    if trace == [] {
    } else {
      SoloUnsnoc(sh, t, trace);
      SoloKeepsKey(sh, t, trace[..|trace| - 1]);
    }
  }

  lemma ActInWorld(w: World, sh: Shared, t: Task, ch: Choice)
    requires !Misleading(sh, t, ch) && Advance(sh, t, ch).Moved? && t.key !in w.tasks
    ensures var m := Advance(sh, t, ch);
            Do(World(sh, w.tasks[t.key := t]), Act(t.key, ch))
            == Some(World(m.sh, if m.t.phase == Finished then w.tasks else w.tasks[t.key := m.t]))
  {
    assert w.tasks[t.key := t] - {t.key} == w.tasks;
    var m := Advance(sh, t, ch);
    assert w.tasks[t.key := t][t.key := m.t] == w.tasks[t.key := m.t];
  }

  lemma SoloUnsnoc(sh: Shared, t: Task, trace: seq<Choice>)
    requires trace != [] && Solo(sh, t, trace).Moved?
    ensures var m := Solo(sh, t, trace[..|trace| - 1]);
            && m.Moved? && m.t.phase != Finished
            && Solo(sh, t, trace) == Advance(m.sh, m.t, trace[|trace| - 1])
  {}

  /** An evaluation run alone is a run of the system, if its reads succeed. */
  lemma {:induction false} SoloIsARun(w: World, t: Task, trace: seq<Choice>)
    requires t.key !in w.tasks && t.phase == Starting && ReadError !in trace
    requires Solo(w.sh, t, trace).Moved?
    ensures var m := Solo(w.sh, t, trace);
            Execute(w, [Begin(t)] + Acts(t.key, trace))
            == Some(World(m.sh, if m.t.phase == Finished then w.tasks else w.tasks[t.key := m.t]))
  {
    var steps := [Begin(t)] + Acts(t.key, trace);
    if trace == [] {
      assert steps == [Begin(t)];
      assert Execute(w, steps[..0]) == Some(w);
    } else {
      var n := |trace| - 1;
      SoloUnsnoc(w.sh, t, trace);
      SoloIsARun(w, t, trace[..n]);
      SoloKeepsKey(w.sh, t, trace[..n]);
      assert steps[..n + 1] == [Begin(t)] + Acts(t.key, trace[..n]) && steps[n + 1] == Act(t.key, trace[n]);
      var m := Solo(w.sh, t, trace[..n]);
      assert trace[n] in trace;
      ActInWorld(w, m.sh, m.t, trace[n]);
    }
  }

  /** Evaluations one after the other, as a loop over the rules makes them. */
  function SoloAll(sh: Shared, tasks: seq<Task>, traces: seq<seq<Choice>>): Option<Shared>
    requires |tasks| == |traces|
  {
    if tasks == [] then Some(sh)
    else
      var n := |tasks| - 1;
      match SoloAll(sh, tasks[..n], traces[..n])
      case None => None
      case Some(mid) =>
        match Solo(mid, tasks[n], traces[n])
        case Blocked => None
        case Moved(sh', t) => if t.phase == Finished then Some(sh') else None
  }

  lemma SoloAllStep(sh: Shared, tasks: seq<Task>, traces: seq<seq<Choice>>, t: Task, trace: seq<Choice>)
    requires |tasks| == |traces| && SoloAll(sh, tasks, traces).Some?
    requires Solo(SoloAll(sh, tasks, traces).value, t, trace).Moved?
    requires Solo(SoloAll(sh, tasks, traces).value, t, trace).t.phase == Finished
    ensures SoloAll(sh, tasks + [t], traces + [trace])
            == Some(Solo(SoloAll(sh, tasks, traces).value, t, trace).sh)
  {
    assert (tasks + [t])[..|tasks|] == tasks && (traces + [trace])[..|traces|] == traces;
  }

  // ---------- Which rules are evaluated, and with what ----------

  datatype Json = Number(value: real) | Object(fields: map<string, Json>) | Other

  function ExtractMetricValue(data: Option<Json>, key: string): Option<real> {
    if data.Some? && data.value.Object? && key in data.value.fields && data.value.fields[key].Number?
    then Some(data.value.fields[key].value)
    else None
  }

  function Field(system: map<string, Json>, name: string): Option<Json> {
    if name in system then Some(system[name]) else None
  }

  function MetricOf(metric: string, system: map<string, Json>): Option<real> {
    if metric == "cpu_usage" then ExtractMetricValue(Field(system, "cpu"), "usage_percent")
    else if metric == "memory_usage" then ExtractMetricValue(Field(system, "memory"), "used_percent")
    else if metric == "disk_usage" then ExtractMetricValue(Field(system, "disk"), "used_percent")
    else None
  }

  function EvaluateCondition(val: real, op: string, threshold: real): bool {
    if op == ">" then val > threshold
    else if op == ">=" then val >= threshold
    else if op == "<" then val < threshold
    else if op == "<=" then val <= threshold
    else if op == "==" then val == threshold
    else false
  }

  /** The operators order values strictly or not as their names say, around every threshold, and an
    * unknown one never triggers. */
  lemma ConditionLaws(t: real, d: real, op: string)
    requires d > 0.0
    ensures EvaluateCondition(t + d, op, t) <==> op in {">", ">="}
    ensures EvaluateCondition(t, op, t) <==> op in {">=", "<=", "=="}
    ensures EvaluateCondition(t - d, op, t) <==> op in {"<", "<="}
  {}

  function NewTask(rule: Rule, agent: string, val: real, triggered: bool): Task {
    Task(Key(rule.id, agent), rule.forDuration, val, triggered, rule.name, Starting)
  }

  function TelemetryTasks(rules: seq<Rule>, agent: string, system: map<string, Json>): seq<Task> {
    if rules == [] then []
    else
      var rule := rules[|rules| - 1];
      var before := TelemetryTasks(rules[..|rules| - 1], agent, system);
      var val := MetricOf(rule.metric, system);
      if rule.enabled && val.Some? then
        before + [NewTask(rule, agent, val.value, EvaluateCondition(val.value, rule.operator, rule.threshold))]
      else before
  }

  function OfflineTasks(rules: seq<Rule>, agent: string, isOffline: bool): seq<Task> {
    if rules == [] then []
    else
      var rule := rules[|rules| - 1];
      var before := OfflineTasks(rules[..|rules| - 1], agent, isOffline);
      if rule.enabled && rule.metric == "agent_offline" then
        before + [NewTask(rule, agent, if isOffline then 1.0 else 0.0, isOffline)]
      else before
  }

  /** Rule ids are the table's primary key. */
  ghost predicate DistinctIds(rules: seq<Rule>) {
    forall i, j :: 0 <= i < j < |rules| ==> rules[i].id != rules[j].id
  }

  /** Where each metric is found; an object or a number missing there means there is no value. */
  lemma MetricLaws(system: map<string, Json>, x: real)
    ensures MetricOf("cpu_usage", system) == Some(x) <==>
              && "cpu" in system && system["cpu"].Object? && "usage_percent" in system["cpu"].fields
              && system["cpu"].fields["usage_percent"] == Number(x)
    ensures MetricOf("memory_usage", system) == Some(x) <==>
              && "memory" in system && system["memory"].Object? && "used_percent" in system["memory"].fields
              && system["memory"].fields["used_percent"] == Number(x)
    ensures MetricOf("disk_usage", system) == Some(x) <==>
              && "disk" in system && system["disk"].Object? && "used_percent" in system["disk"].fields
              && system["disk"].fields["used_percent"] == Number(x)
    ensures forall metric :: metric !in {"cpu_usage", "memory_usage", "disk_usage"} ==> MetricOf(metric, system) == None
  {}

  lemma TelemetryTasksSnoc(rules: seq<Rule>, rule: Rule, agent: string, system: map<string, Json>)
    ensures TelemetryTasks(rules + [rule], agent, system) == TelemetryTasks(rules, agent, system) + TelemetryTasks([rule], agent, system)
  {
    assert (rules + [rule])[..|rules|] == rules && [rule][..0] == [];
  }

  /** The loops take the rules in their order, each for itself. */
  lemma {:induction false} TelemetryTasksInOrder(xs: seq<Rule>, ys: seq<Rule>, agent: string, system: map<string, Json>)
    ensures TelemetryTasks(xs + ys, agent, system) == TelemetryTasks(xs, agent, system) + TelemetryTasks(ys, agent, system)
  {
    if ys == [] {
      assert xs + ys == xs;
    } else {
      var init, last := ys[..|ys| - 1], ys[|ys| - 1];
      assert ys == init + [last] && xs + ys == (xs + init) + [last];
      TelemetryTasksInOrder(xs, init, agent, system);
      TelemetryTasksSnoc(xs + init, last, agent, system);
      TelemetryTasksSnoc(init, last, agent, system);
    }
  }

  lemma OfflineTasksSnoc(rules: seq<Rule>, rule: Rule, agent: string, isOffline: bool)
    ensures OfflineTasks(rules + [rule], agent, isOffline) == OfflineTasks(rules, agent, isOffline) + OfflineTasks([rule], agent, isOffline)
  {
    assert (rules + [rule])[..|rules|] == rules && [rule][..0] == [];
  }

  lemma {:induction false} OfflineTasksInOrder(xs: seq<Rule>, ys: seq<Rule>, agent: string, isOffline: bool)
    ensures OfflineTasks(xs + ys, agent, isOffline) == OfflineTasks(xs, agent, isOffline) + OfflineTasks(ys, agent, isOffline)
  {
    if ys == [] {
      assert xs + ys == xs;
    } else {
      var init, last := ys[..|ys| - 1], ys[|ys| - 1];
      assert ys == init + [last] && xs + ys == (xs + init) + [last];
      OfflineTasksInOrder(xs, init, agent, isOffline);
      OfflineTasksSnoc(xs + init, last, agent, isOffline);
      OfflineTasksSnoc(init, last, agent, isOffline);
    }
  }

  /** The evaluations of one telemetry message are those of the enabled rules whose metric it has. */
  lemma {:induction false} TelemetryTaskOrigin(rules: seq<Rule>, agent: string, system: map<string, Json>, t: Task)
    ensures t in TelemetryTasks(rules, agent, system) <==>
            exists i :: 0 <= i < |rules| && rules[i].enabled && MetricOf(rules[i].metric, system).Some?
              && var val := MetricOf(rules[i].metric, system).value;
                 t == Task(Key(rules[i].id, agent), rules[i].forDuration, val,
                           EvaluateCondition(val, rules[i].operator, rules[i].threshold), rules[i].name, Starting)
  {
    if rules == [] {
    } else {
      var n := |rules| - 1;
      TelemetryTaskOrigin(rules[..n], agent, system, t);
      assert forall i :: 0 <= i < n ==> rules[..n][i] == rules[i];
    }
  }

  lemma {:induction false} OfflineTaskOrigin(rules: seq<Rule>, agent: string, isOffline: bool, t: Task)
    ensures t in OfflineTasks(rules, agent, isOffline) <==>
            exists i :: 0 <= i < |rules| && rules[i].enabled && rules[i].metric == "agent_offline"
              && t == Task(Key(rules[i].id, agent), rules[i].forDuration, if isOffline then 1.0 else 0.0,
                           isOffline, rules[i].name, Starting)
  {
    if rules == [] {
    } else {
      var n := |rules| - 1;
      OfflineTaskOrigin(rules[..n], agent, isOffline, t);
      assert forall i :: 0 <= i < n ==> rules[..n][i] == rules[i];
    }
  }

  ghost predicate DistinctKeys(tasks: seq<Task>) {
    forall i, j :: 0 <= i < j < |tasks| ==> tasks[i].key != tasks[j].key
  }

  lemma KeyAppended(tasks: seq<Task>, t: Task)
    requires DistinctKeys(tasks) && forall u :: u in tasks ==> u.key != t.key
    ensures DistinctKeys(tasks + [t])
  {
    assert forall i :: 0 <= i < |tasks| ==> tasks[i] in tasks;
  }

  /** The loop over the rules evaluates no key twice. */
  lemma {:induction false} TelemetryKeysDistinct(rules: seq<Rule>, agent: string, system: map<string, Json>)
    requires DistinctIds(rules)
    ensures DistinctKeys(TelemetryTasks(rules, agent, system))
  {
    if rules == [] {
    } else {
      var n := |rules| - 1;
      TelemetryKeysDistinct(rules[..n], agent, system);
      var before := TelemetryTasks(rules[..n], agent, system);
      forall t | t in before ensures t.key.rule != rules[n].id {
        TelemetryTaskOrigin(rules[..n], agent, system, t);
      }
      if rules[n].enabled && MetricOf(rules[n].metric, system).Some? {
        var val := MetricOf(rules[n].metric, system).value;
        KeyAppended(before, NewTask(rules[n], agent, val, EvaluateCondition(val, rules[n].operator, rules[n].threshold)));
      }
    }
  }

  /** A telemetry message and an offline check, over the same rules, never evaluate the same key. */
  lemma LoopsAreDisjoint(rules: seq<Rule>, agent: string, system: map<string, Json>, isOffline: bool, t: Task, u: Task)
    requires DistinctIds(rules)
    requires t in TelemetryTasks(rules, agent, system) && u in OfflineTasks(rules, agent, isOffline)
    ensures t.key != u.key
  {
    TelemetryTaskOrigin(rules, agent, system, t);
    OfflineTaskOrigin(rules, agent, isOffline, u);
  }

  // ---------- The engine ----------

  /** The environment's answers to one evaluation: time passing before each clock reading, a failed
    * read, the id generated for a new alert, a failed write, and the database's time. */
  datatype Answers = Answers(beforeLock: nat, beforeCheck: nat, readFails: bool, newId: Id, writeFails: bool, elapsed: nat)

  ghost predicate AllRead(answers: seq<Answers>) {
    forall i :: 0 <= i < |answers| ==> !answers[i].readFails
  }

  ghost predicate NoReadErrors(traces: seq<seq<Choice>>) {
    forall i :: 0 <= i < |traces| ==> ReadError !in traces[i]
  }

  /** The ids offered are new. */
  ghost predicate FreshIds(answers: seq<Answers>, issued: set<Id>, from: nat) {
    && (forall i :: from <= i < |answers| ==> answers[i].newId !in issued)
    && (forall i, j :: from <= i < j < |answers| ==> answers[i].newId != answers[j].newId)
  }

  // ---------- The paths through the two process methods ----------

  lemma ReadTrace(sh: Shared, t: Task, read: Choice, found: Option<Id>)
    requires t.phase.Reading?
    requires || (read == ReadError && found == None)
             || (read == Found(found) && found == None && ActiveIds(sh.st, t.key) == {})
             || (read == Found(found) && found.Some? && found.value in ActiveIds(sh.st, t.key))
    ensures Solo(sh, t, [read])
            == if t.triggered == (found == None) then Moved(sh, t.(phase := Writing(t.phase.lock, t.phase.check, found)))
               else Close(sh, t, t.phase.lock, t.phase.check, read != ReadError, Finished)
  {
    SoloOne(sh, t, read);
  }

  lemma FailTrace(sh: Shared, t: Task, read: Choice, found: Option<Id>)
    requires t.phase.Reading? && t.triggered == (found == None)
    requires Solo(sh, t, [read]) == Moved(sh, t.(phase := Writing(t.phase.lock, t.phase.check, found)))
    ensures Solo(sh, t, [read, StoreError]) == Close(sh, t, t.phase.lock, t.phase.check, false, Finished)
  {
    SoloStep(sh, t, [read], StoreError);
    assert [read] + [StoreError] == [read, StoreError];
  }

  lemma WriteTrace(sh: Shared, t: Task, read: Choice, found: Option<Id>, newId: Id, elapsed: nat)
    requires t.phase.Reading? && t.triggered == (found == None)
    requires Solo(sh, t, [read]) == Moved(sh, t.(phase := Writing(t.phase.lock, t.phase.check, found)))
    ensures Solo(sh, t, [read, Stored(newId, elapsed)])
            == WriteAlert(sh, t, t.phase.lock, t.phase.check, found, newId, elapsed)
  {
    SoloStep(sh, t, [read], Stored(newId, elapsed));
    assert [read] + [Stored(newId, elapsed)] == [read, Stored(newId, elapsed)];
  }

  class Engine {
    const repo: Repository
    var sustained: map<Key, int>
    var clock: int
    ghost var issued: set<Id>
    ghost var hist: map<Key, History>
    ghost var sent: map<Key, seq<Notice>>
    ghost var deleted: set<string>

    ghost function State(): Shared
      reads this, repo
    {
      Shared(repo.st, sustained, clock, issued, hist, sent, deleted)
    }

    constructor (repo: Repository, clock: int)
      ensures this.repo == repo
      ensures State() == Shared(repo.st, map[], clock, repo.st.alerts.Keys, map[], map[], {})
    {
      this.repo := repo;
      this.clock := clock;
      sustained := map[];
      issued := repo.st.alerts.Keys;
      hist, sent, deleted := map[], map[], {};
    }

    /** Publishing on the hub and enqueueing the notification. */
    method Publish(ghost t: Task, notice: Notice)
      requires t.phase == Publishing(notice)
      modifies this`sent
      ensures Advance(old(State()), t, Go) == Moved(State(), t.(phase := Finished))
    {
      sent := sent[t.key := Log(State(), t.key) + [notice]];
    }

    /** CreateAlert or ResolveAlert; `ok` unless the database refused. */
    method Change(t: Task, found: Option<Id>, a: Answers) returns (ok: bool)
      requires t.phase.Reading? && t.triggered == (found == None)
      requires a.newId !in issued && repo.st.alerts.Keys <= issued
      modifies this`issued, this`hist, repo
      ensures !ok ==> Close(old(State()), t, t.phase.lock, t.phase.check, false, Finished)
                      == Moved(State(), t.(phase := Finished))
      ensures ok ==> WriteAlert(old(State()), t, t.phase.lock, t.phase.check, found, a.newId, a.elapsed)
                     == Moved(State(), t.(phase := Publishing(if t.triggered then FiringNotice else ResolvedNotice)))
      ensures repo.st.alerts.Keys <= issued <= old(issued) + {a.newId}
    {
      ok := false;
      if !a.writeFails {
        if t.triggered {
          ok := repo.Create(a.newId, t.key, t.value, t.message, a.elapsed);
        } else {
          ok := repo.Resolve(found.value, t.value, a.elapsed);
        }
      }
      if ok && t.triggered {
        issued := issued + {a.newId};
      }
      hist := Record(State(), t.key, EntryOf(t, t.phase.lock, t.phase.check, ok)).hist;
    }

    method ProcessAlertState(t: Task, a: Answers) returns (ghost trace: seq<Choice>)
      requires t.phase.Reading? && a.newId !in issued && repo.st.alerts.Keys <= issued
      modifies this`issued, this`hist, this`sent, repo
      ensures Solo(old(State()), t, trace) == Moved(State(), t.(phase := Finished))
      ensures a.readFails || ReadError !in trace
      ensures repo.st.alerts.Keys <= issued <= old(issued) + {a.newId}
    {
      ghost var before := State();
      var found := repo.GetActiveAlert(t.key, a.readFails);
      ghost var read := if a.readFails then ReadError else Found(found);
      ReadTrace(before, t, read, found);
      if t.triggered != (found == None) {
        hist := Record(State(), t.key, EntryOf(t, t.phase.lock, t.phase.check, !a.readFails)).hist;
        return [read];
      }
      var ok := Change(t, found, a);
      if !ok {
        FailTrace(before, t, read, found);
        return [read, StoreError];
      }
      WriteTrace(before, t, read, found, a.newId, a.elapsed);
      trace := [read, Stored(a.newId, a.elapsed)];
      SoloStep(before, t, trace, Go);
      trace := trace + [Go];
      if t.triggered {
        Publish(t.(phase := Publishing(FiringNotice)), FiringNotice);
      } else {
        Publish(t.(phase := Publishing(ResolvedNotice)), ResolvedNotice);
      }
    }

    /** The section under the mutex; `first` is the sustained timestamp it saw. */
    method UpdateSustained(t: Task, elapsed: nat) returns (lock: int, first: int)
      requires t.phase == Starting
      modifies this`sustained, this`clock
      ensures clock == lock
      ensures Advance(old(State()), t, Tick(elapsed))
              == Moved(State(), t.(phase := if t.triggered then Checking(lock, first) else Reading(lock, lock)))
    {
      clock := clock + elapsed;
      lock, first := clock, clock;
      if t.triggered {
        if t.key !in sustained {
          sustained := sustained[t.key := lock];
        }
        first := sustained[t.key];
      } else {
        sustained := sustained - {t.key};
      }
    }

    /** The check of the rule's duration against the sustained timestamp. */
    method CheckDuration(t: Task, elapsed: nat) returns (met: bool)
      requires t.phase.Checking?
      modifies this`clock, this`hist
      ensures clock == old(clock) + elapsed
      ensures Advance(old(State()), t, Tick(elapsed))
              == Moved(State(), t.(phase := if met then Reading(t.phase.lock, clock) else Finished))
    {
      clock := clock + elapsed;
      met := !(t.forDuration > 0 && clock - t.phase.first < t.forDuration * SECOND);
      if !met {
        hist := Record(State(), t.key, EntryOf(t, t.phase.lock, clock, true)).hist;
      }
    }

    method ProcessSustainedAndState(t: Task, a: Answers) returns (ghost trace: seq<Choice>)
      requires t.phase == Starting && a.newId !in issued && repo.st.alerts.Keys <= issued
      modifies this, repo
      ensures Solo(old(State()), t, trace) == Moved(State(), t.(phase := Finished))
      ensures a.readFails || ReadError !in trace
      ensures repo.st.alerts.Keys <= issued <= old(issued) + {a.newId}
    {
      ghost var before := State();
      SoloOne(before, t, Tick(a.beforeLock));
      var lock, firstSeen := UpdateSustained(t, a.beforeLock);
      trace := [Tick(a.beforeLock)];
      if t.triggered {
        SoloStep(before, t, trace, Tick(a.beforeCheck));
        trace := trace + [Tick(a.beforeCheck)];
        var met := CheckDuration(t.(phase := Checking(lock, firstSeen)), a.beforeCheck);
        if !met {
          return;
        }
      }
      ghost var rest := ProcessAlertState(t.(phase := Reading(lock, clock)), a);
      SoloConcat(before, t, trace, rest);
      trace := trace + rest;
    }

    method EvaluateTelemetry(rules: Option<seq<Rule>>, agent: string, system: Option<map<string, Json>>, answers: seq<Answers>)
      returns (ghost traces: seq<seq<Choice>>)
      requires rules.Some? ==> |answers| == |rules.value|
      requires FreshIds(answers, issued, 0) && repo.st.alerts.Keys <= issued
      modifies this, repo
      ensures var tasks := if rules.Some? && system.Some? then TelemetryTasks(rules.value, agent, system.value) else [];
              |traces| == |tasks| && SoloAll(old(State()), tasks, traces) == Some(State())
      ensures AllRead(answers) ==> NoReadErrors(traces)
    {
      traces := [];
      if rules == None || system == None {
        return;
      }
      ghost var before := State();
      for i := 0 to |rules.value|
        invariant FreshIds(answers, issued, i) && repo.st.alerts.Keys <= issued
        invariant AllRead(answers) ==> NoReadErrors(traces)
        invariant |traces| == |TelemetryTasks(rules.value[..i], agent, system.value)|
        invariant SoloAll(before, TelemetryTasks(rules.value[..i], agent, system.value), traces) == Some(State())
      {
        var rule := rules.value[i];
        assert rules.value[..i + 1][..i] == rules.value[..i];
        if !rule.enabled {
          continue;
        }
        var val := MetricOf(rule.metric, system.value);
        if val == None {
          continue;
        }
        var triggered := EvaluateCondition(val.value, rule.operator, rule.threshold);
        var task := NewTask(rule, agent, val.value, triggered);
        ghost var trace := ProcessSustainedAndState(task, answers[i]);
        SoloAllStep(before, TelemetryTasks(rules.value[..i], agent, system.value), traces, task, trace);
        traces := traces + [trace];
      }
      assert rules.value[..|rules.value|] == rules.value;
    }

    method EvaluateAgentOffline(rules: Option<seq<Rule>>, agent: string, isOffline: bool, answers: seq<Answers>)
      returns (ghost traces: seq<seq<Choice>>)
      requires rules.Some? ==> |answers| == |rules.value|
      requires FreshIds(answers, issued, 0) && repo.st.alerts.Keys <= issued
      modifies this, repo
      ensures var tasks := if rules.Some? then OfflineTasks(rules.value, agent, isOffline) else [];
              |traces| == |tasks| && SoloAll(old(State()), tasks, traces) == Some(State())
      ensures AllRead(answers) ==> NoReadErrors(traces)
    {
      traces := [];
      if rules == None {
        return;
      }
      ghost var before := State();
      for i := 0 to |rules.value|
        invariant FreshIds(answers, issued, i) && repo.st.alerts.Keys <= issued
        invariant AllRead(answers) ==> NoReadErrors(traces)
        invariant |traces| == |OfflineTasks(rules.value[..i], agent, isOffline)|
        invariant SoloAll(before, OfflineTasks(rules.value[..i], agent, isOffline), traces) == Some(State())
      {
        var rule := rules.value[i];
        assert rules.value[..i + 1][..i] == rules.value[..i];
        if !rule.enabled || rule.metric != "agent_offline" {
          continue;
        }
        var val := 0.0;
        if isOffline {
          val := 1.0;
        }
        var task := NewTask(rule, agent, val, isOffline);
        ghost var trace := ProcessSustainedAndState(task, answers[i]);
        SoloAllStep(before, OfflineTasks(rules.value[..i], agent, isOffline), traces, task, trace);
        traces := traces + [trace];
      }
      assert rules.value[..|rules.value|] == rules.value;
    }
  }
}
