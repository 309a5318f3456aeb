/** What the loops over the rules do to the table: an alert they insert comes no earlier after the start
  * of its key's streak than the duration its rule asks for. */
module AlertLoops {
  import opened Options
  import opened AlertStore
  import opened AlertHistory
  import opened AlertEngine
  import opened AlertGuarantees
  import opened AlertCode

  // ---------- One evaluation ----------

  /** The key has been sustained for as long as the evaluation's rule asks, at time `now`. */
  ghost predicate LongEnough(sh: Shared, t: Task, now: int) {
    t.triggered && t.key in sh.sustained && Met(t.forDuration, sh.sustained[t.key], now)
  }

  ghost predicate AddsAlert(sh: Shared, sh': Shared, k: Key) {
    exists id :: id in ActiveIds(sh'.st, k) && id !in ActiveIds(sh.st, k)
  }

  /** How far an evaluation that began in `sh` with `t` has come. */
  ghost predicate Progress(sh: Shared, t: Task, sh': Shared, t': Task) {
    && t' == t.(phase := t'.phase)
    && match t'.phase
       case Starting => sh' == sh
       case Checking(_, first) => sh'.st == sh.st && t.triggered && t.key in sh'.sustained && first == sh'.sustained[t.key]
       case Reading(_, check) => sh'.st == sh.st && (t.triggered ==> LongEnough(sh', t, check)) && check == sh'.clock
       case Writing(_, check, found) =>
         sh'.st == sh.st && (t.triggered <==> found == None) && (t.triggered ==> LongEnough(sh', t, check)) && check == sh'.clock
       case Publishing(_) => AddsAlert(sh, sh', t.key) ==> LongEnough(sh', t, sh'.clock)
       case Finished => AddsAlert(sh, sh', t.key) ==> LongEnough(sh', t, sh'.clock)
  }

  lemma WriteProgress(sh: Shared, t: Task, sh': Shared, t': Task, ch: Choice)
    requires Progress(sh, t, sh', t') && t'.phase.Writing? && Advance(sh', t', ch).Moved?
    ensures var m := Advance(sh', t', ch); Progress(sh, t, m.sh, m.t)
  {
    if ch.Stored? && t'.phase.found.Some? {
      ActiveAfterResolve(sh'.st, t'.phase.found.value, t.value, ch.elapsed, t.key);
    }
  }

  lemma AdvanceProgress(sh: Shared, t: Task, sh': Shared, t': Task, ch: Choice)
    requires t.phase == Starting && Progress(sh, t, sh', t') && Advance(sh', t', ch).Moved?
    ensures var m := Advance(sh', t', ch); Progress(sh, t, m.sh, m.t)
  {
    if t'.phase.Writing? {
      WriteProgress(sh, t, sh', t', ch);
    }
  }

  lemma {:induction false} SoloProgress(sh: Shared, t: Task, trace: seq<Choice>)
    requires t.phase == Starting && Solo(sh, t, trace).Moved?
    ensures var m := Solo(sh, t, trace); Progress(sh, t, m.sh, m.t)
  {
    if trace == [] {
    } else {
      SoloUnsnoc(sh, t, trace);
      var init := trace[..|trace| - 1];
      SoloProgress(sh, t, init);
      AdvanceProgress(sh, t, Solo(sh, t, init).sh, Solo(sh, t, init).t, trace[|trace| - 1]);
    }
  }

  /** Whatever its reads and writes answer: when an evaluation adds an alert, the key's timestamp is at
    * least the duration of its rule old. */
  lemma EvaluationNeverEarly(sh: Shared, t: Task, trace: seq<Choice>)
    requires t.phase == Starting && Solo(sh, t, trace).Moved? && Solo(sh, t, trace).t.phase == Finished
    requires AddsAlert(sh, Solo(sh, t, trace).sh, t.key)
    ensures var sh' := Solo(sh, t, trace).sh;
            && t.triggered && t.key in sh'.sustained
            && (t.forDuration > 0 ==> sh'.clock - sh'.sustained[t.key] >= t.forDuration * 1_000_000_000)
  {
    SoloProgress(sh, t, trace);
  }

  // ---------- The loops ----------

  /** The state before the `j`-th evaluation of a loop. */
  ghost predicate Reaches(sh: Shared, tasks: seq<Task>, traces: seq<seq<Choice>>, j: nat, mid: Shared) {
    && |tasks| == |traces| && j <= |tasks|
    && SoloAll(sh, tasks[..j], traces[..j]) == Some(mid)
  }

  lemma {:induction false} LoopPrefix(sh: Shared, tasks: seq<Task>, traces: seq<seq<Choice>>, j: nat) returns (mid: Shared)
    requires |tasks| == |traces| && SoloAll(sh, tasks, traces).Some? && j <= |tasks|
    ensures Reaches(sh, tasks, traces, j, mid)
    decreases |tasks|
  {
    if j == |tasks| {
      assert tasks[..j] == tasks && traces[..j] == traces;
      mid := SoloAll(sh, tasks, traces).value;
    } else {
      var n := |tasks| - 1;
      mid := LoopPrefix(sh, tasks[..n], traces[..n], j);
      assert tasks[..n][..j] == tasks[..j] && traces[..n][..j] == traces[..j];
    }
  }

  lemma LoopStep(sh: Shared, tasks: seq<Task>, traces: seq<seq<Choice>>, j: nat, mid: Shared, mid': Shared)
    requires j < |tasks| && Reaches(sh, tasks, traces, j, mid) && Reaches(sh, tasks, traces, j + 1, mid')
    ensures var o := Solo(mid, tasks[j], traces[j]); o.Moved? && o.t.phase == Finished && o.sh == mid'
  {
    assert tasks[..j + 1][..j] == tasks[..j] && traces[..j + 1][..j] == traces[..j];
  }

  lemma LoopNeverEarly(sh: Shared, tasks: seq<Task>, traces: seq<seq<Choice>>, j: nat, mid: Shared, mid': Shared)
    requires j < |tasks| && Reaches(sh, tasks, traces, j, mid) && Reaches(sh, tasks, traces, j + 1, mid')
    requires tasks[j].phase == Starting && AddsAlert(mid, mid', tasks[j].key)
    ensures var t := tasks[j];
            && t.triggered && t.key in mid'.sustained
            && (t.forDuration > 0 ==> mid'.clock - mid'.sustained[t.key] >= t.forDuration * 1_000_000_000)
  {
    LoopStep(sh, tasks, traces, j, mid, mid');
    EvaluationNeverEarly(mid, tasks[j], traces[j]);
  }

  /** An alert that EvaluateTelemetry inserts belongs to an enabled rule of the list, and comes at least
    * that rule's for_duration after the key's timestamp, whatever fails on the way. */
  lemma TelemetryNeverEarly(sh: Shared, rules: seq<Rule>, agent: string, system: map<string, Json>,
                            traces: seq<seq<Choice>>, j: nat, mid: Shared, mid': Shared) returns (i: nat)
    requires var tasks := TelemetryTasks(rules, agent, system);
             && j < |tasks| && Reaches(sh, tasks, traces, j, mid) && Reaches(sh, tasks, traces, j + 1, mid')
             && AddsAlert(mid, mid', tasks[j].key)
    ensures i < |rules| && rules[i].enabled
    ensures var k := Key(rules[i].id, agent);
            && TelemetryTasks(rules, agent, system)[j].key == k && k in mid'.sustained
            && (rules[i].forDuration > 0 ==> mid'.clock - mid'.sustained[k] >= rules[i].forDuration * 1_000_000_000)
  {
    var tasks := TelemetryTasks(rules, agent, system);
    TelemetryTaskOrigin(rules, agent, system, tasks[j]);
    assert tasks[j] in tasks;
    i :| 0 <= i < |rules| && rules[i].enabled && MetricOf(rules[i].metric, system).Some?
      && var val := MetricOf(rules[i].metric, system).value;
         tasks[j] == Task(Key(rules[i].id, agent), rules[i].forDuration, val,
                          EvaluateCondition(val, rules[i].operator, rules[i].threshold), rules[i].name, Starting);
    LoopNeverEarly(sh, tasks, traces, j, mid, mid');
  }

  /** ... and so for EvaluateAgentOffline. */
  lemma OfflineNeverEarly(sh: Shared, rules: seq<Rule>, agent: string, isOffline: bool,
                          traces: seq<seq<Choice>>, j: nat, mid: Shared, mid': Shared) returns (i: nat)
    requires var tasks := OfflineTasks(rules, agent, isOffline);
             && j < |tasks| && Reaches(sh, tasks, traces, j, mid) && Reaches(sh, tasks, traces, j + 1, mid')
             && AddsAlert(mid, mid', tasks[j].key)
    ensures i < |rules| && rules[i].enabled && isOffline
    ensures var k := Key(rules[i].id, agent);
            && OfflineTasks(rules, agent, isOffline)[j].key == k && k in mid'.sustained
            && (rules[i].forDuration > 0 ==> mid'.clock - mid'.sustained[k] >= rules[i].forDuration * 1_000_000_000)
  {
    var tasks := OfflineTasks(rules, agent, isOffline);
    OfflineTaskOrigin(rules, agent, isOffline, tasks[j]);
    assert tasks[j] in tasks;
    i :| 0 <= i < |rules| && rules[i].enabled && rules[i].metric == "agent_offline"
      && tasks[j] == Task(Key(rules[i].id, agent), rules[i].forDuration, if isOffline then 1.0 else 0.0, isOffline,
                          rules[i].name, Starting);
    LoopNeverEarly(sh, tasks, traces, j, mid, mid');
  }

  // ---------- The timestamp is the start of the streak ----------

  lemma SoloKeepsInv(sh: Shared, t: Task, trace: seq<Choice>)
    requires Inv(World(sh, map[])) && t.phase == Starting && ReadError !in trace
    requires Solo(sh, t, trace).Moved? && Solo(sh, t, trace).t.phase == Finished
    ensures Inv(World(Solo(sh, t, trace).sh, map[]))
  {
    SoloIsARun(World(sh, map[]), t, trace);
    HistGrows(World(sh, map[]), [Begin(t)] + Acts(t.key, trace), t.key);
  }

  lemma {:induction false} LoopKeepsInv(sh: Shared, tasks: seq<Task>, traces: seq<seq<Choice>>, j: nat, mid: Shared)
    requires Inv(World(sh, map[])) && Reaches(sh, tasks, traces, j, mid)
    requires NoReadErrors(traces) && forall i :: 0 <= i < |tasks| ==> tasks[i].phase == Starting
    ensures Inv(World(mid, map[]))
    decreases j
  {
    if j == 0 {
      assert tasks[..0] == [] && traces[..0] == [];
    } else {
      assert tasks[..j][..j - 1] == tasks[..j - 1] && traces[..j][..j - 1] == traces[..j - 1];
      var before := SoloAll(sh, tasks[..j - 1], traces[..j - 1]).value;
      LoopKeepsInv(sh, tasks, traces, j - 1, before);
      LoopStep(sh, tasks, traces, j - 1, before, mid);
      SoloKeepsInv(before, tasks[j - 1], traces[j - 1]);
    }
  }

  /** Run from a reachable state with reads that succeed, the loop keeps the timestamp of every key at the
    * lock time of the first evaluation of its running streak, so TelemetryNeverEarly and
    * OfflineNeverEarly measure from there. */
  lemma LoopStreak(sh: Shared, tasks: seq<Task>, traces: seq<seq<Choice>>, j: nat, mid: Shared, k: Key)
    requires Inv(World(sh, map[])) && Reaches(sh, tasks, traces, j, mid)
    requires NoReadErrors(traces) && forall i :: 0 <= i < |tasks| ==> tasks[i].phase == Starting
    ensures k in mid.sustained <==> exists s: nat :: BeginsStreak(Hist(mid, k), s)
    ensures forall s: nat :: BeginsStreak(Hist(mid, k), s) ==> k in mid.sustained && mid.sustained[k] == Hist(mid, k)[s].lock
  {
    LoopKeepsInv(sh, tasks, traces, j, mid);
    assert KeyOk(World(mid, map[]), k);
    StreakStartMeaning(Hist(mid, k));
  }
}
