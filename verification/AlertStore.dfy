/** The alert table of internal/alerting/repository.go: inserts, guarded in-place updates and the
  * cascade of a rule's deletion, with the lifecycle every sequence of them gives a row. */
module AlertStore {
  import opened Options

  type Id = string

  datatype Key = Key(rule: string, agent: string)

  datatype Status = Firing | Acknowledged | Resolved

  datatype Alert = Alert(
    key: Key, status: Status, startedAt: int,
    acknowledgedAt: Option<int>, acknowledgedBy: string, acknowledgedComment: string,
    resolvedAt: Option<int>, lastValue: real, message: string, updatedAt: int)

  datatype Rule = Rule(id: string, name: string, metric: string, operator: string, threshold: real, forDuration: int,
                       severity: string, enabled: bool)

  /** `clock` is the latest time the database has handed out; a write happens
    * some time `elapsed` after it. */
  datatype Store = Store(rules: map<string, Rule>, alerts: map<Id, Alert>, clock: int)

  predicate IsActive(a: Alert) {
    a.status == Firing || a.status == Acknowledged
  }

  /** The rows GetActiveAlert may return for a key. */
  function ActiveIds(st: Store, key: Key): set<Id> {
    set id | id in st.alerts && st.alerts[id].key == key && IsActive(st.alerts[id])
  }

  // ---------- The writes; None is the error return ----------

  /** INSERT: refused for a taken primary key or a rule that no longer exists. */
  function CreateAlert(st: Store, id: Id, key: Key, value: real, message: string, elapsed: nat): Option<Store> {
    if id in st.alerts || key.rule !in st.rules then None
    else
      var now := st.clock + elapsed;
      Some(st.(alerts := st.alerts[id := Alert(key, Firing, now, None, "", "", None, value, message, now)], clock := now))
  }

  /** UPDATE ... WHERE status = 'firing' */
  function AcknowledgeAlert(st: Store, id: Id, user: string, comment: string, elapsed: nat): Option<Store> {
    if id !in st.alerts || st.alerts[id].status != Firing then None
    else
      var now := st.clock + elapsed;
      var a := st.alerts[id].(status := Acknowledged, acknowledgedAt := Some(now), acknowledgedBy := user,
                              acknowledgedComment := comment, updatedAt := now);
      Some(st.(alerts := st.alerts[id := a], clock := now))
  }

  /** UPDATE ... WHERE status IN ('firing', 'acknowledged') */
  function ResolveAlert(st: Store, id: Id, value: real, elapsed: nat): Option<Store> {
    if id !in st.alerts || !IsActive(st.alerts[id]) then None
    else
      var now := st.clock + elapsed;
      var a := st.alerts[id].(status := Resolved, resolvedAt := Some(now), lastValue := value, updatedAt := now);
      Some(st.(alerts := st.alerts[id := a], clock := now))
  }

  /** INSERT or UPDATE of a rule; an empty severity becomes "warning". */
  function PutRule(st: Store, rule: Rule): Store {
    var r := if rule.severity == "" then rule.(severity := "warning") else rule;
    st.(rules := st.rules[r.id := r])
  }

  /** DELETE of a rule, with ON DELETE CASCADE on its alerts. */
  function DeleteRule(st: Store, rule: string): Store {
    st.(rules := st.rules - {rule}, alerts := map id | id in st.alerts && st.alerts[id].key.rule != rule :: st.alerts[id])
  }

  // ---------- Sequences of writes ----------

  datatype Write =
    | Create(id: Id, key: Key, value: real, message: string, elapsed: nat)
    | Acknowledge(id: Id, user: string, comment: string, elapsed: nat)
    | Resolve(id: Id, value: real, elapsed: nat)
    | Put(rule: Rule)
    | Delete(ruleId: string)

  /** A refused write leaves the tables as they are. */
  function Apply(st: Store, w: Write): Store {
    match w
    case Create(id, key, value, message, elapsed) => CreateAlert(st, id, key, value, message, elapsed).GetOr(st)
    case Acknowledge(id, user, comment, elapsed) => AcknowledgeAlert(st, id, user, comment, elapsed).GetOr(st)
    case Resolve(id, value, elapsed) => ResolveAlert(st, id, value, elapsed).GetOr(st)
    case Put(rule) => PutRule(st, rule)
    case Delete(rule) => DeleteRule(st, rule)
  }

  function ApplyAll(st: Store, ws: seq<Write>): Store {
    if ws == [] then st else Apply(ApplyAll(st, ws[..|ws| - 1]), ws[|ws| - 1])
  }

  // ---------- The lifecycle ----------

  /** The columns of one row agree with its status, and its times with each other. */
  ghost predicate Coherent(a: Alert, clock: int) {
    && a.startedAt <= clock
    && (a.resolvedAt.Some? <==> a.status == Resolved)
    && (a.status == Firing ==> a.acknowledgedAt == None)
    && (a.status == Acknowledged ==> a.acknowledgedAt.Some?)
    && (a.acknowledgedAt == None ==> a.acknowledgedBy == "" && a.acknowledgedComment == "")
    && (a.acknowledgedAt.Some? ==> a.startedAt <= a.acknowledgedAt.value <= clock)
    && (a.resolvedAt.Some? ==> a.startedAt <= a.resolvedAt.value <= clock)
    && (a.acknowledgedAt.Some? && a.resolvedAt.Some? ==> a.acknowledgedAt.value <= a.resolvedAt.value)
  }

  ghost predicate StoreOk(st: Store) {
    && (forall id :: id in st.alerts ==> Coherent(st.alerts[id], st.clock))
    && (forall id :: id in st.alerts ==> st.alerts[id].key.rule in st.rules)
  }

  function Rank(s: Status): nat {
    match s
    case Firing => 0
    case Acknowledged => 1
    case Resolved => 2
  }

  /** What a row may become: it only moves forward, a resolved row never changes, and an
    * acknowledgement once written stays. */
  ghost predicate Evolves(a: Alert, b: Alert) {
    && a.key == b.key && a.startedAt == b.startedAt && a.message == b.message
    && Rank(a.status) <= Rank(b.status)
    && (a.status == b.status ==> a == b)
    && (a.acknowledgedAt.Some? ==>
          b.acknowledgedAt == a.acknowledgedAt && b.acknowledgedBy == a.acknowledgedBy
          && b.acknowledgedComment == a.acknowledgedComment)
  }

  lemma WriteKeepsStore(st: Store, w: Write)
    requires StoreOk(st)
    ensures StoreOk(Apply(st, w)) && st.clock <= Apply(st, w).clock
  {}

  lemma WriteEvolves(st: Store, w: Write, id: Id)
    requires StoreOk(st) && id in st.alerts && id in Apply(st, w).alerts
    ensures Evolves(st.alerts[id], Apply(st, w).alerts[id])
  {}

  lemma EvolvesTransitive(a: Alert, b: Alert, c: Alert)
    requires Evolves(a, b) && Evolves(b, c)
    ensures Evolves(a, c)
  {}

  /** In every state some sequence of writes can reach, the row's columns agree. */
  lemma {:induction false} EveryStoreCoherent(ws: seq<Write>, clock: int)
    ensures StoreOk(ApplyAll(Store(map[], map[], clock), ws))
  {
    if ws == [] {
    } else {
      EveryStoreCoherent(ws[..|ws| - 1], clock);
      WriteKeepsStore(ApplyAll(Store(map[], map[], clock), ws[..|ws| - 1]), ws[|ws| - 1]);
    }
  }

  /** The row is in the table before, between and after the writes. */
  ghost predicate Survives(st: Store, ws: seq<Write>, id: Id) {
    id in ApplyAll(st, ws).alerts && (ws != [] ==> Survives(st, ws[..|ws| - 1], id))
  }

  /** Whatever writes reach the table, in whatever order (overlapping evaluations, acknowledgements,
    * rule edits), a row that stays in it follows firing, acknowledged, resolved. */
  lemma {:induction false} LifecycleOfSurvivors(st: Store, ws: seq<Write>, id: Id)
    requires StoreOk(st) && Survives(st, ws, id)
    ensures id in st.alerts && StoreOk(ApplyAll(st, ws))
    ensures Evolves(st.alerts[id], ApplyAll(st, ws).alerts[id])
  {
    if ws == [] {
    } else {
      var n := |ws| - 1;
      LifecycleOfSurvivors(st, ws[..n], id);
      var mid := ApplyAll(st, ws[..n]);
      WriteKeepsStore(mid, ws[n]);
      WriteEvolves(mid, ws[n], id);
      EvolvesTransitive(st.alerts[id], mid.alerts[id], ApplyAll(st, ws).alerts[id]);
    }
  }

  /** What each write does to the active rows of any key. */
  lemma ActiveAfterCreate(st: Store, id: Id, key: Key, value: real, message: string, elapsed: nat, k: Key)
    requires CreateAlert(st, id, key, value, message, elapsed).Some?
    ensures var st' := CreateAlert(st, id, key, value, message, elapsed).value;
            && ActiveIds(st', k) == (if k == key then ActiveIds(st, k) + {id} else ActiveIds(st, k))
            && id in st'.alerts && st'.alerts[id].key == key && st'.alerts[id].status == Firing
            && st'.alerts[id].lastValue == value && st'.alerts[id].message == message
            && st'.alerts[id].startedAt == st'.alerts[id].updatedAt == st'.clock
  {
    var st' := CreateAlert(st, id, key, value, message, elapsed).value;
    forall x ensures x in ActiveIds(st', k) <==> x in ActiveIds(st, k) || (k == key && x == id) {}
  }

  lemma ActiveAfterResolve(st: Store, id: Id, value: real, elapsed: nat, k: Key)
    requires ResolveAlert(st, id, value, elapsed).Some?
    ensures var st' := ResolveAlert(st, id, value, elapsed).value;
            && ActiveIds(st', k) == ActiveIds(st, k) - {id}
            && id in st'.alerts && st'.alerts[id].status == Resolved
            && st'.alerts[id].lastValue == value && st'.alerts[id].resolvedAt == Some(st'.clock)
  {}

  lemma ActiveAfterAcknowledge(st: Store, id: Id, user: string, comment: string, elapsed: nat, k: Key)
    requires AcknowledgeAlert(st, id, user, comment, elapsed).Some?
    ensures ActiveIds(AcknowledgeAlert(st, id, user, comment, elapsed).value, k) == ActiveIds(st, k)
  {}

  lemma ActiveAfterDelete(st: Store, rule: string, k: Key)
    ensures ActiveIds(DeleteRule(st, rule), k) == if k.rule == rule then {} else ActiveIds(st, k)
  {}

  // ---------- The repository ----------

  class Repository {
    var st: Store

    constructor (clock: int)
      ensures st == Store(map[], map[], clock)
    {
      st := Store(map[], map[], clock);
    }

    /** SELECT ... LIMIT 1; an error reads as "no alert". */
    method GetActiveAlert(key: Key, readFails: bool) returns (found: Option<Id>)
      ensures readFails ==> found == None
      ensures !readFails ==> (found == None <==> ActiveIds(st, key) == {})
      ensures found.Some? ==> found.value in ActiveIds(st, key)
    {
      if readFails || ActiveIds(st, key) == {} {
        return None;
      }
      var id :| id in ActiveIds(st, key);
      return Some(id);
    }

    method Create(id: Id, key: Key, value: real, message: string, elapsed: nat) returns (ok: bool)
      modifies this
      ensures ok <==> id !in old(st).alerts && key.rule in old(st).rules
      ensures ok ==> st.clock == old(st).clock + elapsed
      ensures ok ==> st.alerts == old(st).alerts[id := Alert(key, Firing, st.clock, None, "", "", None, value, message, st.clock)]
      ensures st.rules == old(st).rules && (!ok ==> st == old(st))
      ensures ok == CreateAlert(old(st), id, key, value, message, elapsed).Some?
      ensures st == Apply(old(st), Write.Create(id, key, value, message, elapsed))
    {
      ok := id !in st.alerts && key.rule in st.rules;
      if ok {
        var now := st.clock + elapsed;
        var row := Alert(key, Firing, now, None, "", "", None, value, message, now);
        st := st.(alerts := st.alerts[id := row], clock := now);
      }
    }

    /** Only a firing alert can be acknowledged, and it keeps the user's name and comment. */
    method Acknowledge(id: Id, user: string, comment: string, elapsed: nat) returns (ok: bool)
      modifies this
      ensures ok <==> id in old(st).alerts && old(st).alerts[id].status == Firing
      ensures ok ==> st.clock == old(st).clock + elapsed && st.alerts.Keys == old(st).alerts.Keys
      ensures ok ==> var row, was := st.alerts[id], old(st).alerts[id];
                     && row.status == Acknowledged && row.acknowledgedAt == Some(st.clock) && row.updatedAt == st.clock
                     && row.acknowledgedBy == user && row.acknowledgedComment == comment
                     && row.key == was.key && row.startedAt == was.startedAt && row.resolvedAt == was.resolvedAt
                     && row.lastValue == was.lastValue && row.message == was.message
      ensures forall x :: x in st.alerts && x != id ==> x in old(st).alerts && st.alerts[x] == old(st).alerts[x]
      ensures st.rules == old(st).rules && (!ok ==> st == old(st))
      ensures ok == AcknowledgeAlert(old(st), id, user, comment, elapsed).Some?
      ensures st == Apply(old(st), Write.Acknowledge(id, user, comment, elapsed))
    {
      ok := id in st.alerts && st.alerts[id].status == Firing;
      if ok {
        var now := st.clock + elapsed;
        var row := st.alerts[id];
        row := row.(status := Acknowledged, acknowledgedAt := Some(now), updatedAt := now);
        row := row.(acknowledgedBy := user, acknowledgedComment := comment);
        st := st.(alerts := st.alerts[id := row], clock := now);
      }
    }

    /** A firing alert can be resolved and so can an acknowledged one, which keeps its acknowledgement. */
    method Resolve(id: Id, value: real, elapsed: nat) returns (ok: bool)
      modifies this
      ensures ok <==> id in old(st).alerts && (old(st).alerts[id].status == Firing || old(st).alerts[id].status == Acknowledged)
      ensures ok ==> st.clock == old(st).clock + elapsed && st.alerts.Keys == old(st).alerts.Keys
      ensures ok ==> var row, was := st.alerts[id], old(st).alerts[id];
                     && row.status == Resolved && row.resolvedAt == Some(st.clock) && row.updatedAt == st.clock
                     && row.lastValue == value
                     && row.key == was.key && row.startedAt == was.startedAt && row.message == was.message
                     && row.acknowledgedAt == was.acknowledgedAt && row.acknowledgedBy == was.acknowledgedBy
                     && row.acknowledgedComment == was.acknowledgedComment
      ensures forall x :: x in st.alerts && x != id ==> x in old(st).alerts && st.alerts[x] == old(st).alerts[x]
      ensures st.rules == old(st).rules && (!ok ==> st == old(st))
      ensures ok == ResolveAlert(old(st), id, value, elapsed).Some?
      ensures st == Apply(old(st), Write.Resolve(id, value, elapsed))
    {
      ok := id in st.alerts && IsActive(st.alerts[id]);
      if ok {
        var now := st.clock + elapsed;
        var row := st.alerts[id];
        row := row.(status := Resolved, resolvedAt := Some(now), lastValue := value, updatedAt := now);
        st := st.(alerts := st.alerts[id := row], clock := now);
      }
    }

    /** Creating a rule or updating the one under its id: it is stored as given, "warning" standing in for no severity. */
    method Save(rule: Rule)
      modifies this
      ensures rule.id in st.rules
      ensures st.rules[rule.id].(severity := rule.severity) == rule
      ensures st.rules[rule.id].severity == (if rule.severity == "" then "warning" else rule.severity)
      ensures st.rules.Keys == old(st).rules.Keys + {rule.id}
      ensures forall r :: r in st.rules && r != rule.id ==> st.rules[r] == old(st).rules[r]
      ensures st.alerts == old(st).alerts && st.clock == old(st).clock
      ensures st == Apply(old(st), Write.Put(rule))
    {
      var stored := rule;
      if stored.severity == "" {
        stored := stored.(severity := "warning");
      }
      st := st.(rules := st.rules[rule.id := stored]);
    }

    /** The rule goes and every alert of it; all else stays. */
    method Remove(rule: string)
      modifies this
      ensures rule !in st.rules && st.clock == old(st).clock
      ensures forall r :: r != rule ==> (r in st.rules <==> r in old(st).rules)
      ensures forall r :: r in st.rules ==> st.rules[r] == old(st).rules[r]
      ensures forall id :: id in st.alerts <==> id in old(st).alerts && old(st).alerts[id].key.rule != rule
      ensures forall id :: id in st.alerts ==> st.alerts[id] == old(st).alerts[id]
      ensures st == Apply(old(st), Write.Delete(rule))
    {
      var kept := map id | id in st.alerts && st.alerts[id].key.rule != rule :: st.alerts[id];
      st := st.(rules := st.rules - {rule}, alerts := kept);
    }
  }
}
