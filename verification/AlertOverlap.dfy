/** The engine without its two assumptions: evaluations of one key may overlap, as goroutines started
  * by different messages can, and any read may fail. What goes wrong then, exactly when, and what
  * still holds. */
module AlertOverlap {
  import opened Options
  import opened AlertStore
  import opened AlertHistory
  import opened AlertEngine
  import opened AlertGuarantees

  /** The evaluations in flight under numbers of their own, and for every key what was read under the
    * mutex, in the order the mutex was taken. */
  datatype Crowd = Crowd(sh: Shared, tasks: map<nat, Task>, locks: map<Key, History>)

  datatype Event =
    | Launch(i: nat, task: Task)
    | Turn(i: nat, ch: Choice)
    | Acked(id: Id, user: string, comment: string, elapsed: nat)
    | Edited(rule: Rule)
    | Deleted(ruleId: string)

  function Locks(c: Crowd, k: Key): History {
    if k in c.locks then c.locks[k] else []
  }

  /** The locked section of an evaluation, as an entry of its key. */
  function Locked(t: Task, now: int): Entry {
    Evaluated(now, now, t.forDuration, t.triggered, true)
  }

  function Opening(dbClock: int, clock: int): Crowd {
    Crowd(Start(dbClock, clock).sh, map[], map[])
  }

  function Happen(c: Crowd, e: Event): Option<Crowd> {
    match e
    case Launch(i, t) =>
      if i in c.tasks || t.phase != Starting then None else Some(c.(tasks := c.tasks[i := t]))
    case Turn(i, ch) =>
      if i !in c.tasks then None
      else (match Advance(c.sh, c.tasks[i], ch)
            case Blocked => None
            case Moved(sh, t) =>
              Some(Crowd(sh, if t.phase == Finished then c.tasks - {i} else c.tasks[i := t],
                         if c.tasks[i].phase == Starting then c.locks[t.key := Locks(c, t.key) + [Locked(t, sh.clock)]]
                         else c.locks)))
    case Acked(id, user, comment, elapsed) =>
      Some(c.(sh := c.sh.(st := Apply(c.sh.st, Acknowledge(id, user, comment, elapsed)))))
    case Edited(rule) => Some(c.(sh := c.sh.(st := PutRule(c.sh.st, rule))))
    case Deleted(rule) => Some(c.(sh := Erase(c.sh, rule)))
  }

  /** Acknowledgements and rule changes are those of the system without overlap. */
  lemma SharedEvents(c: Crowd, id: Id, user: string, comment: string, elapsed: nat, rule: Rule)
    ensures var w := World(c.sh, map[]);
            && Happen(c, Acked(id, user, comment, elapsed)) == Some(c.(sh := Do(w, Ack(id, user, comment, elapsed)).value.sh))
            && Happen(c, Edited(rule)) == Some(c.(sh := Do(w, ChangeRule(rule)).value.sh))
            && Happen(c, Deleted(rule.id)) == Some(c.(sh := Do(w, RemoveRule(rule.id)).value.sh))
  {}

  /** A run, with the state before and after each event. */
  ghost predicate IsRun(cs: seq<Crowd>, es: seq<Event>) {
    && |cs| == |es| + 1
    && forall n :: 0 <= n < |es| ==> Happen(cs[n], es[n]) == Some(cs[n + 1])
  }

  ghost predicate Opens(c: Crowd) {
    exists dbClock, clock :: c == Opening(dbClock, clock)
  }

  function Active(c: Crowd, k: Key): set<Id> {
    ActiveIds(c.sh.st, k)
  }

  // ---------- Exactly when a key gets a second active alert ----------

  /** An evaluation of `k` that has read "no alert" and not yet written. */
  ghost predicate Inserting(c: Crowd, i: nat, k: Key) {
    i in c.tasks && c.tasks[i].key == k && c.tasks[i].phase.Writing? && c.tasks[i].phase.found == None
  }

  ghost predicate Inserts(c: Crowd, e: Event, k: Key) {
    e.Turn? && Inserting(c, e.i, k) && e.ch.Stored?
  }

  lemma OnlyInsertsAdd(c: Crowd, e: Event, k: Key)
    requires Happen(c, e).Some?
    ensures var c' := Happen(c, e).value;
            if Inserts(c, e, k) then Active(c', k) == Active(c, k) + {e.ch.newId} && e.ch.newId !in Active(c, k)
            else Active(c', k) <= Active(c, k)
  {
    match e
    case Turn(i, ch) =>
      var t := c.tasks[i];
      if t.phase.Writing? && ch.Stored? {
        match t.phase.found
        case None => ActiveAfterCreate(c.sh.st, ch.newId, t.key, t.value, t.message, ch.elapsed, k);
        case Some(id) => ActiveAfterResolve(c.sh.st, id, t.value, ch.elapsed, k);
      }
    case Acked(id, user, comment, elapsed) =>
      if AcknowledgeAlert(c.sh.st, id, user, comment, elapsed).Some? {
        ActiveAfterAcknowledge(c.sh.st, id, user, comment, elapsed, k);
      }
    case Deleted(rule) => ActiveAfterDelete(c.sh.st, rule, k);
    case _ =>
  }

  /** A step takes a key from at most one active alert to two exactly when it is an insert and the key
    * has an active alert. */
  lemma DuplicateStepIff(c: Crowd, e: Event, k: Key)
    requires Happen(c, e).Some? && AtMostOne(Active(c, k))
    ensures !AtMostOne(Active(Happen(c, e).value, k)) <==> Inserts(c, e, k) && Active(c, k) != {}
  {
    OnlyInsertsAdd(c, e, k);
    if Inserts(c, e, k) && Active(c, k) != {} {
      var a :| a in Active(c, k);
      assert a != e.ch.newId;
    }
  }

  lemma RunInit(cs: seq<Crowd>, es: seq<Event>)
    requires IsRun(cs, es) && es != []
    ensures var m := |es| - 1;
            && IsRun(cs[..m + 1], es[..m]) && Happen(cs[m], es[m]) == Some(cs[m + 1])
            && (forall n :: 0 <= n <= m ==> cs[..m + 1][n] == cs[n]) && (forall n :: 0 <= n < m ==> es[..m][n] == es[n])
  {
    var m := |es| - 1;
    assert Happen(cs[m], es[m]) == Some(cs[m + 1]);
  }

  ghost predicate OneThroughout(cs: seq<Crowd>, k: Key) {
    forall n :: 0 <= n < |cs| ==> AtMostOne(Active(cs[n], k))
  }

  ghost predicate InsertsOnActive(cs: seq<Crowd>, es: seq<Event>, n: nat, k: Key) {
    n < |cs| && n < |es| && Inserts(cs[n], es[n], k) && Active(cs[n], k) != {}
  }

  /** Over a whole run of any interleaving: a key never has two active alerts exactly when no insert
    * of it runs while it has one. */
  lemma {:induction false} AtMostOneIff(cs: seq<Crowd>, es: seq<Event>, k: Key)
    requires IsRun(cs, es) && Opens(cs[0])
    ensures OneThroughout(cs, k) <==> forall n: nat :: !InsertsOnActive(cs, es, n, k)
  {
    if es == [] {
    } else {
      var m := |es| - 1;
      var init := cs[..m + 1];
      RunInit(cs, es);
      AtMostOneIff(init, es[..m], k);
      assert forall n: nat :: n < m ==> (InsertsOnActive(cs, es, n, k) <==> InsertsOnActive(init, es[..m], n, k));
      assert OneThroughout(cs, k) <==> OneThroughout(init, k) && AtMostOne(Active(cs[m + 1], k));
      if OneThroughout(init, k) {
        assert AtMostOne(Active(init[m], k));
        DuplicateStepIff(cs[m], es[m], k);
        assert InsertsOnActive(cs, es, m, k) <==> !AtMostOne(Active(cs[m + 1], k));
        assert forall n: nat :: n < m ==> !InsertsOnActive(init, es[..m], n, k);
        assert forall n: nat :: n < m ==> !InsertsOnActive(cs, es, n, k);
        assert forall n: nat :: n > m ==> !InsertsOnActive(cs, es, n, k);
      } else {
        var n: nat :| InsertsOnActive(init, es[..m], n, k);
        assert n < m && InsertsOnActive(cs, es, n, k);
      }
    }
  }

  // ---------- What callers have to see to ----------

  /** The event is the read of a triggered evaluation of `k`. */
  ghost predicate Looks(c: Crowd, e: Event, k: Key) {
    && e.Turn? && e.i in c.tasks && c.tasks[e.i].key == k
    && c.tasks[e.i].phase.Reading? && c.tasks[e.i].triggered
  }

  /** A triggered evaluation does not read while another one of its key is between read and insert,
    * and its read does not fail while the key has an active alert. */
  ghost predicate Careful(c: Crowd, e: Event, k: Key) {
    Looks(c, e, k) ==>
      && (forall i :: !Inserting(c, i, k))
      && (e.ch == ReadError ==> Active(c, k) == {})
  }

  ghost predicate Orderly(c: Crowd, k: Key) {
    && AtMostOne(Active(c, k))
    && (forall i :: Inserting(c, i, k) ==> Active(c, k) == {})
    && (forall i, j :: Inserting(c, i, k) && Inserting(c, j, k) ==> i == j)
  }

  /** Only such a read makes an evaluation ready to insert. */
  lemma BecomesInserting(c: Crowd, e: Event, i: nat, k: Key)
    requires Happen(c, e).Some? && Inserting(Happen(c, e).value, i, k) && !Inserting(c, i, k)
    ensures Looks(c, e, k) && e.i == i && (e.ch == ReadError || Active(c, k) == {})
  {}

  lemma StopsInserting(c: Crowd, e: Event, k: Key)
    requires Happen(c, e).Some? && Inserts(c, e, k)
    ensures !Inserting(Happen(c, e).value, e.i, k)
  {}

  lemma CarefulStep(c: Crowd, e: Event, k: Key)
    requires Orderly(c, k) && Happen(c, e).Some? && Careful(c, e, k)
    ensures Orderly(Happen(c, e).value, k)
  {
    var c' := Happen(c, e).value;
    OnlyInsertsAdd(c, e, k);
    if Inserts(c, e, k) {
      StopsInserting(c, e, k);
    }
    forall i | Inserting(c', i, k) ensures Active(c', k) == {} && forall j :: Inserting(c', j, k) ==> i == j {
      if !Inserting(c, i, k) {
        BecomesInserting(c, e, i, k);
      }
      forall j | Inserting(c', j, k) ensures i == j {
        if !Inserting(c, j, k) {
          BecomesInserting(c, e, j, k);
        }
      }
    }
  }

  lemma {:induction false} CarefulRun(cs: seq<Crowd>, es: seq<Event>, k: Key)
    requires IsRun(cs, es) && Opens(cs[0])
    requires forall n :: 0 <= n < |es| ==> Careful(cs[n], es[n], k)
    ensures OneThroughout(cs, k) && Orderly(cs[|es|], k)
  {
    if es == [] {
    } else {
      var m := |es| - 1;
      RunInit(cs, es);
      CarefulRun(cs[..m + 1], es[..m], k);
      CarefulStep(cs[m], es[m], k);
      forall n | 0 <= n < |cs| ensures AtMostOne(Active(cs[n], k)) {
        if n <= m {
          assert AtMostOne(Active(cs[..m + 1][n], k));
        }
      }
    }
  }

  /** If triggered evaluations of a key take turns from read to insert and none of their reads fails
    * on an active key, the key never has two active alerts, whatever else overlaps. */
  lemma AtMostOneUnderOverlap(cs: seq<Crowd>, es: seq<Event>, k: Key, n: nat, a: Id, b: Id)
    requires IsRun(cs, es) && Opens(cs[0])
    requires forall m :: 0 <= m < |es| ==> Careful(cs[m], es[m], k)
    requires n < |cs| && a in Active(cs[n], k) && b in Active(cs[n], k)
    ensures a == b
  {
    CarefulRun(cs, es, k);
    assert AtMostOne(Active(cs[n], k));
  }

  /** At most one evaluation of `k` is in flight. */
  ghost predicate Alone(c: Crowd, k: Key) {
    forall i, j :: i in c.tasks && j in c.tasks && c.tasks[i].key == c.tasks[j].key == k ==> i == j
  }

  /** The read of an evaluation of `k` fails while the key has an active alert. */
  ghost predicate MissesAlert(c: Crowd, e: Event, k: Key) {
    e.Turn? && e.ch == ReadError && e.i in c.tasks && c.tasks[e.i].key == k && Active(c, k) != {}
  }

  lemma AloneIsCareful(c: Crowd, e: Event, k: Key)
    requires Alone(c, k) && !MissesAlert(c, e, k)
    ensures Careful(c, e, k)
  {}

  /** Runs in which evaluations of the key never overlap and none of its reads misses an active alert are
    * a special case, the other keys' evaluations overlapping as they like. */
  lemma AtMostOneWithoutOverlap(cs: seq<Crowd>, es: seq<Event>, k: Key, n: nat, a: Id, b: Id)
    requires IsRun(cs, es) && Opens(cs[0])
    requires forall m :: 0 <= m < |es| ==> Alone(cs[m], k) && !MissesAlert(cs[m], es[m], k)
    requires n < |cs| && a in Active(cs[n], k) && b in Active(cs[n], k)
    ensures a == b
  {
    forall m | 0 <= m < |es| ensures Careful(cs[m], es[m], k) {
      AloneIsCareful(cs[m], es[m], k);
    }
    AtMostOneUnderOverlap(cs, es, k, n, a, b);
  }

  // ---------- Runs that leave two active alerts ----------

  /** Seconds to wait for a rule's duration, in nanoseconds. */
  function Wait(t: Task): nat {
    if t.forDuration > 0 then t.forDuration * SECOND else 0
  }

  /** Both read, then both write. */
  function TwoInserts(a: Id, b: Id): seq<Event> {
    [Turn(0, Found(None)), Turn(1, Found(None)), Turn(0, Stored(a, 0)), Turn(1, Stored(b, 0))]
  }

  ghost predicate AtRead(c: Crowd, i: nat, t: Task) {
    i in c.tasks && c.tasks[i].phase.Reading? && c.tasks[i] == t.(phase := c.tasks[i].phase)
  }

  /** Both evaluations, wherever they come from, read before either writes. */
  lemma TwoReadsRun(c: Crowd, t: Task) returns (c1: Crowd, c2: Crowd)
    requires AtRead(c, 0, t) && AtRead(c, 1, t) && t.triggered && Active(c, t.key) == {}
    ensures Happen(c, Turn(0, Found(None))) == Some(c1) && Happen(c1, Turn(1, Found(None))) == Some(c2)
    ensures c2.sh == c.sh && Inserting(c2, 0, t.key) && Inserting(c2, 1, t.key)
  {
    c1 := Happen(c, Turn(0, Found(None))).value;
    c2 := Happen(c1, Turn(1, Found(None))).value;
  }

  lemma InsertEnabled(c: Crowd, i: nat, k: Key, id: Id)
    requires Inserting(c, i, k) && k.rule in c.sh.st.rules && id !in c.sh.issued && c.sh.st.alerts.Keys <= c.sh.issued
    ensures Happen(c, Turn(i, Stored(id, 0))).Some?
    ensures var c' := Happen(c, Turn(i, Stored(id, 0))).value;
            && Active(c', k) == Active(c, k) + {id}
            && c'.sh.issued == c.sh.issued + {id} && c'.sh.st.alerts.Keys <= c'.sh.issued && c'.sh.st.rules == c.sh.st.rules
            && forall j :: j != i && Inserting(c, j, k) ==> Inserting(c', j, k)
  {
    OnlyInsertsAdd(c, Turn(i, Stored(id, 0)), k);
  }

  lemma TwoInsertsRun(c: Crowd, t: Task, a: Id, b: Id) returns (cs: seq<Crowd>)
    requires AtRead(c, 0, t) && AtRead(c, 1, t) && t.triggered && a != b
    requires Active(c, t.key) == {} && a !in c.sh.issued && b !in c.sh.issued
    requires c.sh.st.alerts.Keys <= c.sh.issued && t.key.rule in c.sh.st.rules
    ensures IsRun(cs, TwoInserts(a, b)) && cs[0] == c && Active(cs[|cs| - 1], t.key) == {a, b}
  {
    var c1, c2 := TwoReadsRun(c, t);
    InsertEnabled(c2, 0, t.key, a);
    var c3 := Happen(c2, Turn(0, Stored(a, 0))).value;
    InsertEnabled(c3, 1, t.key, b);
    cs := [c, c1, c2, c3, Happen(c3, Turn(1, Stored(b, 0))).value];
  }

  lemma JoinRuns(cs: seq<Crowd>, es: seq<Event>, ds: seq<Crowd>, fs: seq<Event>)
    requires IsRun(cs, es) && IsRun(ds, fs) && cs[|es|] == ds[0]
    ensures IsRun(cs + ds[1..], es + fs) && (cs + ds[1..])[|es + fs|] == ds[|fs|] && (cs + ds[1..])[0] == cs[0]
  {
    var all, both := cs + ds[1..], es + fs;
    forall n | 0 <= n < |both| ensures Happen(all[n], both[n]) == Some(all[n + 1]) {
      if n < |es| {
        assert Happen(cs[n], es[n]) == Some(cs[n + 1]);
      } else {
        assert Happen(ds[n - |es|], fs[n - |es|]) == Some(ds[n - |es| + 1]);
      }
    }
  }

  /** One evaluation up to its check, for a key that may be sustained already. */
  function OneCheck(i: nat, t: Task): seq<Event> {
    [Launch(i, t), Turn(i, Tick(0)), Turn(i, Tick(Wait(t)))]
  }

  lemma OneCheckRun(c: Crowd, i: nat, t: Task) returns (cs: seq<Crowd>)
    requires i !in c.tasks && t.phase == Starting && t.triggered
    requires t.key in c.sh.sustained ==> c.sh.sustained[t.key] <= c.sh.clock
    ensures IsRun(cs, OneCheck(i, t)) && cs[0] == c
    ensures var c' := cs[|cs| - 1];
            && AtRead(c', i, t) && c'.sh.st == c.sh.st && c'.sh.issued == c.sh.issued
            && c'.tasks.Keys == c.tasks.Keys + {i} && (forall j :: j in c.tasks ==> c'.tasks[j] == c.tasks[j])
            && t.key in c'.sh.sustained && c'.sh.sustained[t.key] <= c'.sh.clock
  {
    var c1 := Happen(c, Launch(i, t)).value;
    var c2 := Happen(c1, Turn(i, Tick(0))).value;
    var c3 := Happen(c2, Turn(i, Tick(Wait(t)))).value;
    cs := [c, c1, c2, c3];
  }

  /** For every rule: two overlapping evaluations that read before either writes leave two active
    * alerts. */
  lemma OverlapDuplicates(dbClock: int, clock: int, rule: Rule, t: Task, a: Id, b: Id) returns (cs: seq<Crowd>)
    requires t.key.rule == rule.id && t.phase == Starting && t.triggered && a != b
    ensures var es := [Edited(rule)] + OneCheck(0, t) + OneCheck(1, t) + TwoInserts(a, b);
            IsRun(cs, es) && cs[0] == Opening(dbClock, clock) && Active(cs[|es|], t.key) == {a, b}
  {
    var c := Opening(dbClock, clock);
    cs := [c, Happen(c, Edited(rule)).value];
    var es := [Edited(rule)];
    var checked := OneCheckRun(cs[1], 0, t);
    JoinRuns(cs, es, checked, OneCheck(0, t));
    cs, es := cs + checked[1..], es + OneCheck(0, t);
    checked := OneCheckRun(cs[|es|], 1, t);
    JoinRuns(cs, es, checked, OneCheck(1, t));
    cs, es := cs + checked[1..], es + OneCheck(1, t);
    assert Active(cs[|es|], t.key) == {};
    var written := TwoInsertsRun(cs[|es|], t, a, b);
    JoinRuns(cs, es, written, TwoInserts(a, b));
    cs := cs + written[1..];
  }

  /** A read that finds nothing or fails, and the insert after it. */
  lemma ReadAndInsertRun(c: Crowd, i: nat, t: Task, read: Choice, id: Id) returns (cs: seq<Crowd>)
    requires AtRead(c, i, t) && t.triggered && id !in c.sh.issued && c.sh.st.alerts.Keys <= c.sh.issued
    requires t.key.rule in c.sh.st.rules
    requires read == ReadError || (read == Found(None) && Active(c, t.key) == {})
    ensures IsRun(cs, [Turn(i, read), Turn(i, Stored(id, 0))]) && cs[0] == c
    ensures var c' := cs[|cs| - 1];
            && Active(c', t.key) == Active(c, t.key) + {id}
            && c'.sh.issued == c.sh.issued + {id} && c'.sh.st.alerts.Keys <= c'.sh.issued && c'.sh.st.rules == c.sh.st.rules
            && c'.sh.sustained == c.sh.sustained && c'.sh.clock == c.sh.clock && c'.tasks.Keys == c.tasks.Keys
  {
    var c1 := Happen(c, Turn(i, read)).value;
    var c2 := Happen(c1, Turn(i, Stored(id, 0))).value;
    OnlyInsertsAdd(c1, Turn(i, Stored(id, 0)), t.key);
    cs := [c, c1, c2];
  }

  /** A rule is created and an evaluation of its key inserts. */
  function FirstAlert(rule: Rule, t: Task, a: Id): seq<Event> {
    [Edited(rule)] + OneCheck(0, t) + [Turn(0, Found(None)), Turn(0, Stored(a, 0))]
  }

  /** The next evaluation's read fails. */
  function SecondAlert(t: Task, b: Id): seq<Event> {
    OneCheck(1, t) + [Turn(1, ReadError), Turn(1, Stored(b, 0))]
  }

  lemma FirstAlertRun(dbClock: int, clock: int, rule: Rule, t: Task, a: Id) returns (cs: seq<Crowd>)
    requires t.key.rule == rule.id && t.phase == Starting && t.triggered
    ensures IsRun(cs, FirstAlert(rule, t, a)) && cs[0] == Opening(dbClock, clock)
    ensures var c := cs[|cs| - 1];
            && Active(c, t.key) == {a} && c.sh.issued == {a} && c.sh.st.alerts.Keys <= c.sh.issued
            && t.key.rule in c.sh.st.rules && t.key in c.sh.sustained && c.sh.sustained[t.key] <= c.sh.clock
            && c.tasks.Keys == {0}
  {
    var c := Opening(dbClock, clock);
    cs := [c, Happen(c, Edited(rule)).value];
    var checked := OneCheckRun(cs[1], 0, t);
    JoinRuns(cs, [Edited(rule)], checked, OneCheck(0, t));
    cs := cs + checked[1..];
    var c' := checked[|checked| - 1];
    assert Active(c', t.key) == {};
    var written := ReadAndInsertRun(c', 0, t, Found(None), a);
    JoinRuns(cs, [Edited(rule)] + OneCheck(0, t), written, [Turn(0, Found(None)), Turn(0, Stored(a, 0))]);
    cs := cs + written[1..];
  }

  lemma SecondAlertRun(c: Crowd, t: Task, b: Id) returns (cs: seq<Crowd>)
    requires t.phase == Starting && t.triggered && 1 !in c.tasks
    requires t.key in c.sh.sustained ==> c.sh.sustained[t.key] <= c.sh.clock
    requires c.sh.st.alerts.Keys <= c.sh.issued && b !in c.sh.issued && t.key.rule in c.sh.st.rules
    ensures IsRun(cs, SecondAlert(t, b)) && cs[0] == c && Active(cs[|cs| - 1], t.key) == Active(c, t.key) + {b}
  {
    var checked := OneCheckRun(c, 1, t);
    var written := ReadAndInsertRun(checked[|checked| - 1], 1, t, ReadError, b);
    JoinRuns(checked, OneCheck(1, t), written, [Turn(1, ReadError), Turn(1, Stored(b, 0))]);
    cs := checked + written[1..];
  }

  /** For every rule: an evaluation inserts, and the next one inserts again because its read fails. */
  lemma FailedReadDuplicates(dbClock: int, clock: int, rule: Rule, t: Task, a: Id, b: Id) returns (cs: seq<Crowd>)
    requires t.key.rule == rule.id && t.phase == Starting && t.triggered && a != b
    ensures var es := FirstAlert(rule, t, a) + SecondAlert(t, b);
            IsRun(cs, es) && cs[0] == Opening(dbClock, clock) && Active(cs[|es|], t.key) == {a, b}
  {
    cs := FirstAlertRun(dbClock, clock, rule, t, a);
    var second := SecondAlertRun(cs[|cs| - 1], t, b);
    JoinRuns(cs, FirstAlert(rule, t, a), second, SecondAlert(t, b));
    cs := cs + second[1..];
  }

  /** An evaluation that finds the condition over, and whose read fails. */
  function MissedResolve(u: Task): seq<Event> {
    [Launch(1, u), Turn(1, Tick(0)), Turn(1, ReadError)]
  }

  lemma MissedResolveRun(c: Crowd, u: Task) returns (cs: seq<Crowd>)
    requires u.phase == Starting && !u.triggered && 1 !in c.tasks
    ensures IsRun(cs, MissedResolve(u)) && cs[0] == c
    ensures var c' := cs[|cs| - 1];
            1 !in c'.tasks && u.key !in c'.sh.sustained && Active(c', u.key) == Active(c, u.key)
  {
    var c1 := Happen(c, Launch(1, u)).value;
    var c2 := Happen(c1, Turn(1, Tick(0))).value;
    var c3 := Happen(c2, Turn(1, ReadError)).value;
    cs := [c, c1, c2, c3];
  }

  /** For every rule: an alert stays active after the evaluation that should have resolved it has ended,
    * because its read failed. */
  lemma FailedReadKeepsAlert(dbClock: int, clock: int, rule: Rule, t: Task, u: Task, a: Id) returns (cs: seq<Crowd>)
    requires t.key.rule == rule.id && t.phase == Starting && t.triggered
    requires u.key == t.key && u.phase == Starting && !u.triggered
    ensures var es := FirstAlert(rule, t, a) + MissedResolve(u);
            && IsRun(cs, es) && cs[0] == Opening(dbClock, clock)
            && 1 !in cs[|es|].tasks && t.key !in cs[|es|].sh.sustained && Active(cs[|es|], t.key) == {a}
  {
    cs := FirstAlertRun(dbClock, clock, rule, t, a);
    var second := MissedResolveRun(cs[|cs| - 1], u);
    JoinRuns(cs, FirstAlert(rule, t, a), second, MissedResolve(u));
    cs := cs + second[1..];
  }

  // ---------- What survives every overlap ----------

  /** The evaluation's place among the locked sections of its key. */
  ghost predicate LockedAt(h: History, m: nat, lock: int, first: int) {
    m < |h| && h[m].Evaluated? && h[m].lock == lock && StreakStart(h[..m + 1]) == Some(first)
  }

  ghost predicate Sustains(c: Crowd, t: Task) {
    match t.phase
    case Checking(lock, first) => exists m: nat :: LockedAt(Locks(c, t.key), m, lock, first)
    case Reading(lock, check) => t.triggered ==> HeldLong(c, t, lock, check)
    case Writing(lock, check, found) => (t.triggered <==> found == None) && (t.triggered ==> HeldLong(c, t, lock, check))
    case _ => true
  }

  ghost predicate HeldLong(c: Crowd, t: Task, lock: int, check: int) {
    exists m: nat, first :: LockedAt(Locks(c, t.key), m, lock, first) && Met(t.forDuration, first, check)
  }

  ghost predicate SustainedInv(c: Crowd) {
    && (forall k :: SustainedIs(c.sh, k, StreakStart(Locks(c, k))))
    && (forall i :: i in c.tasks ==> Sustains(c, c.tasks[i]))
  }

  lemma LocksGrow(c: Crowd, e: Event, k: Key)
    requires Happen(c, e).Some?
    ensures Locks(c, k) <= Locks(Happen(c, e).value, k)
  {}

  lemma LockedAtGrows(h: History, h': History, m: nat, lock: int, first: int)
    requires h <= h' && LockedAt(h, m, lock, first)
    ensures LockedAt(h', m, lock, first)
  {
    assert h'[..m + 1] == h[..m + 1];
  }

  lemma SustainsGrows(c: Crowd, c': Crowd, t: Task)
    requires Sustains(c, t) && Locks(c, t.key) <= Locks(c', t.key)
    ensures Sustains(c', t)
  {
    var h, h' := Locks(c, t.key), Locks(c', t.key);
    match t.phase
    case Checking(lock, first) =>
      var m: nat :| LockedAt(h, m, lock, first);
      LockedAtGrows(h, h', m, lock, first);
    case Reading(lock, check) =>
      if t.triggered {
        HeldLongGrows(c, c', t, lock, check);
      }
    case Writing(lock, check, _) =>
      if t.triggered {
        HeldLongGrows(c, c', t, lock, check);
      }
    case _ =>
  }

  lemma HeldLongGrows(c: Crowd, c': Crowd, t: Task, lock: int, check: int)
    requires HeldLong(c, t, lock, check) && Locks(c, t.key) <= Locks(c', t.key)
    ensures HeldLong(c', t, lock, check)
  {
    var m: nat, first :| LockedAt(Locks(c, t.key), m, lock, first) && Met(t.forDuration, first, check);
    LockedAtGrows(Locks(c, t.key), Locks(c', t.key), m, lock, first);
  }

  lemma LocksAfter(c: Crowd, i: nat, ch: Choice)
    requires Happen(c, Turn(i, ch)).Some? && c.tasks[i].phase == Starting
    ensures var c' := Happen(c, Turn(i, ch)).value;
            var t := c.tasks[i];
            Locks(c', t.key) == Locks(c, t.key) + [Locked(t, c'.sh.clock)]
  {}

  /** The locked section does to the timestamp what its entry does to the streak. */
  lemma LockStep(c: Crowd, i: nat, ch: Choice)
    requires SustainedInv(c) && Happen(c, Turn(i, ch)).Some? && c.tasks[i].phase == Starting
    ensures var c' := Happen(c, Turn(i, ch)).value;
            var k := c.tasks[i].key;
            SustainedIs(c'.sh, k, StreakStart(Locks(c', k))) && i in c'.tasks && Sustains(c', c'.tasks[i])
  {
    var c' := Happen(c, Turn(i, ch)).value;
    var t := c.tasks[i];
    var h := Locks(c, t.key);
    var e := Locked(t, c'.sh.clock);
    LocksAfter(c, i, ch);
    EntryAppended(h, e);
    assert SustainedIs(c.sh, t.key, StreakStart(h));
    if t.triggered {
      assert (h + [e])[..|h| + 1] == h + [e];
      assert LockedAt(h + [e], |h|, c'.sh.clock, StreakStart(h).GetOr(c'.sh.clock));
    }
  }

  lemma LaterStep(c: Crowd, i: nat, ch: Choice)
    requires SustainedInv(c) && Happen(c, Turn(i, ch)).Some? && c.tasks[i].phase != Starting
    ensures var c' := Happen(c, Turn(i, ch)).value;
            && c'.locks == c.locks && c'.sh.sustained == c.sh.sustained
            && (i in c'.tasks ==> Sustains(c', c'.tasks[i]))
  {
    var t := c.tasks[i];
    assert Sustains(c, t);
    if t.phase.Checking? {
      var m: nat :| LockedAt(Locks(c, t.key), m, t.phase.lock, t.phase.first);
      assert Locks(Happen(c, Turn(i, ch)).value, t.key) == Locks(c, t.key);
    } else if t.phase.Reading? && t.triggered {
      HeldLongGrows(c, Happen(c, Turn(i, ch)).value, t, t.phase.lock, t.phase.check);
    }
  }

  /** What a locked section of another key leaves alone. */
  lemma OtherKey(c: Crowd, i: nat, ch: Choice, k: Key)
    requires Happen(c, Turn(i, ch)).Some? && c.tasks[i].key != k
    ensures var c' := Happen(c, Turn(i, ch)).value;
            && Locks(c', k) == Locks(c, k)
            && (k in c'.sh.sustained <==> k in c.sh.sustained)
            && (k in c.sh.sustained ==> c'.sh.sustained[k] == c.sh.sustained[k])
  {}

  lemma OtherTask(c: Crowd, i: nat, ch: Choice, j: nat)
    requires Happen(c, Turn(i, ch)).Some? && j != i
    ensures var c' := Happen(c, Turn(i, ch)).value;
            (j in c'.tasks <==> j in c.tasks) && (j in c.tasks ==> c'.tasks[j] == c.tasks[j])
  {}

  lemma TurnKeepsSustained(c: Crowd, i: nat, ch: Choice)
    requires SustainedInv(c) && Happen(c, Turn(i, ch)).Some?
    ensures SustainedInv(Happen(c, Turn(i, ch)).value)
  {
    var c' := Happen(c, Turn(i, ch)).value;
    if c.tasks[i].phase == Starting {
      LockStep(c, i, ch);
    } else {
      LaterStep(c, i, ch);
    }
    forall k ensures SustainedIs(c'.sh, k, StreakStart(Locks(c', k))) {
      assert SustainedIs(c.sh, k, StreakStart(Locks(c, k)));
      if c.tasks[i].key != k {
        OtherKey(c, i, ch, k);
      }
    }
    forall j | j in c'.tasks ensures Sustains(c', c'.tasks[j]) {
      if j != i {
        OtherTask(c, i, ch, j);
        LocksGrow(c, Turn(i, ch), c.tasks[j].key);
        SustainsGrows(c, c', c.tasks[j]);
      }
    }
  }

  lemma EventKeepsSustained(c: Crowd, e: Event)
    requires SustainedInv(c) && Happen(c, e).Some?
    ensures SustainedInv(Happen(c, e).value)
  {
    if e.Turn? {
      TurnKeepsSustained(c, e.i, e.ch);
    } else {
      var c' := Happen(c, e).value;
      forall k ensures SustainedIs(c'.sh, k, StreakStart(Locks(c', k))) {
        assert SustainedIs(c.sh, k, StreakStart(Locks(c, k)));
      }
      forall j | j in c'.tasks ensures Sustains(c', c'.tasks[j]) {
        if j in c.tasks {
          LocksGrow(c, e, c.tasks[j].key);
          SustainsGrows(c, c', c.tasks[j]);
        }
      }
    }
  }

  lemma {:induction false} SustainedRun(cs: seq<Crowd>, es: seq<Event>)
    requires IsRun(cs, es) && Opens(cs[0])
    ensures SustainedInv(cs[|es|])
  {
    if es == [] {
    } else {
      var m := |es| - 1;
      RunInit(cs, es);
      SustainedRun(cs[..m + 1], es[..m]);
      EventKeepsSustained(cs[m], es[m]);
    }
  }

  /** Ids are not used again, so what an evaluation found stays its key's, or is deleted. */
  ghost predicate Owns(sh: Shared, k: Key, id: Id) {
    id in sh.issued && (id in sh.st.alerts ==> sh.st.alerts[id].key == k)
  }

  ghost predicate FoundOwn(c: Crowd) {
    && c.sh.st.alerts.Keys <= c.sh.issued
    && forall i :: i in c.tasks && c.tasks[i].phase.Writing? && c.tasks[i].phase.found.Some? ==>
         Owns(c.sh, c.tasks[i].key, c.tasks[i].phase.found.value)
  }

  lemma AdvanceOwns(sh: Shared, t: Task, ch: Choice, k: Key, id: Id)
    requires Owns(sh, k, id) && Advance(sh, t, ch).Moved?
    ensures Owns(Advance(sh, t, ch).sh, k, id)
  {}

  lemma EventKeepsKeys(c: Crowd, e: Event, k: Key, id: Id)
    requires Owns(c.sh, k, id) && Happen(c, e).Some?
    ensures Owns(Happen(c, e).value.sh, k, id)
  {
    if e.Turn? {
      AdvanceOwns(c.sh, c.tasks[e.i], e.ch, k, id);
    }
  }

  lemma EventIssues(c: Crowd, e: Event)
    requires c.sh.st.alerts.Keys <= c.sh.issued && Happen(c, e).Some?
    ensures Happen(c, e).value.sh.st.alerts.Keys <= Happen(c, e).value.sh.issued
  {
    if e.Turn? {
      AdvanceIssues(c.sh, c.tasks[e.i], e.ch);
    }
  }

  lemma OwnFound(c: Crowd, i: nat, ch: Choice)
    requires FoundOwn(c) && Happen(c, Turn(i, ch)).Some?
    ensures var c' := Happen(c, Turn(i, ch)).value;
            i in c'.tasks && c'.tasks[i].phase.Writing? && c'.tasks[i].phase.found.Some? ==>
              Owns(c'.sh, c'.tasks[i].key, c'.tasks[i].phase.found.value)
  {}

  lemma EventKeepsFound(c: Crowd, e: Event)
    requires FoundOwn(c) && Happen(c, e).Some?
    ensures FoundOwn(Happen(c, e).value)
  {
    var c' := Happen(c, e).value;
    EventIssues(c, e);
    forall i | i in c'.tasks && c'.tasks[i].phase.Writing? && c'.tasks[i].phase.found.Some?
      ensures Owns(c'.sh, c'.tasks[i].key, c'.tasks[i].phase.found.value)
    {
      if e.Turn? && e.i == i {
        OwnFound(c, i, e.ch);
      } else {
        if e.Turn? {
          OtherTask(c, e.i, e.ch, i);
        }
        EventKeepsKeys(c, e, c.tasks[i].key, c.tasks[i].phase.found.value);
      }
    }
  }

  lemma {:induction false} FoundRun(cs: seq<Crowd>, es: seq<Event>)
    requires IsRun(cs, es) && Opens(cs[0])
    ensures FoundOwn(cs[|es|])
  {
    if es == [] {
    } else {
      var m := |es| - 1;
      RunInit(cs, es);
      FoundRun(cs[..m + 1], es[..m]);
      EventKeepsFound(cs[m], es[m]);
    }
  }

  /** The write of an evaluation that is not triggered. */
  lemma ResolveWrite(c: Crowd, i: nat, ch: Choice)
    requires FoundOwn(c) && i in c.tasks && Happen(c, Turn(i, ch)).Some?
    requires c.tasks[i].phase.Writing? && c.tasks[i].phase.found.Some? && AtMostOne(Active(c, c.tasks[i].key))
    ensures var k, c' := c.tasks[i].key, Happen(c, Turn(i, ch)).value;
            Active(c', k) == if ch == StoreError then Active(c, k) else {}
  {
    var t := c.tasks[i];
    if ch.Stored? {
      var id := t.phase.found.value;
      assert id in Active(c, t.key);
      ActiveAfterResolve(c.sh.st, id, t.value, ch.elapsed, t.key);
    }
  }

  /** In every reachable state with at most one active alert: when an evaluation that is not triggered is
    * through with the table, its key has an active alert exactly when it had one and the read or the
    * write of this step failed. */
  lemma LeftActiveIff(cs: seq<Crowd>, es: seq<Event>, i: nat, ch: Choice)
    requires IsRun(cs, es) && Opens(cs[0]) && Happen(cs[|es|], Turn(i, ch)).Some?
    requires var t := cs[|es|].tasks[i];
             (t.phase.Reading? || t.phase.Writing?) && !t.triggered && AtMostOne(Active(cs[|es|], t.key))
    ensures var c, c' := cs[|es|], Happen(cs[|es|], Turn(i, ch)).value;
            var k := c.tasks[i].key;
            || (i in c'.tasks && c'.tasks[i].phase.Writing?)
            || (Active(c', k) != {} <==> Active(c, k) != {} && (ch == ReadError || ch == StoreError))
  {
    SustainedRun(cs, es);
    FoundRun(cs, es);
    var c := cs[|es|];
    assert Sustains(c, c.tasks[i]);
    if c.tasks[i].phase.Writing? {
      ResolveWrite(c, i, ch);
    }
  }

  /** However evaluations overlap and whatever fails, the stored timestamp is that of the first locked
    * section of the unbroken streak of triggered ones, in the order of the locks. */
  lemma SustainedUnderOverlap(cs: seq<Crowd>, es: seq<Event>, k: Key)
    requires IsRun(cs, es) && Opens(cs[0])
    ensures var c := cs[|es|];
            && (k in c.sh.sustained <==> exists s: nat :: BeginsStreak(Locks(c, k), s))
            && (forall s: nat :: BeginsStreak(Locks(c, k), s) ==>
                  k in c.sh.sustained && c.sh.sustained[k] == Locks(c, k)[s].lock)
  {
    SustainedRun(cs, es);
    assert SustainedIs(cs[|es|].sh, k, StreakStart(Locks(cs[|es|], k)));
    StreakStartMeaning(Locks(cs[|es|], k));
  }

  /** However evaluations overlap and whatever fails, no insert is early: up to the inserting
    * evaluation's own lock, entry `m`, every evaluation of the key that took the lock from entry `s` on
    * was triggered, and `s` lies at least `for_duration` before the duration check. */
  lemma OverlapNeverEarly(cs: seq<Crowd>, es: seq<Event>, e: Event, k: Key) returns (s: nat, m: nat)
    requires IsRun(cs, es) && Opens(cs[0]) && Inserts(cs[|es|], e, k)
    ensures var h, t := Locks(cs[|es|], k), cs[|es|].tasks[e.i];
            && s <= m < |h| && h[s].Evaluated? && h[m].Evaluated? && h[m].lock == t.phase.lock
            && (forall i :: s <= i <= m && h[i].Evaluated? ==> h[i].triggered)
            && (t.forDuration > 0 ==> t.phase.check - h[s].lock >= t.forDuration * SECOND)
  {
    SustainedRun(cs, es);
    var c := cs[|es|];
    var h, t := Locks(c, k), c.tasks[e.i];
    assert Sustains(c, t);
    var first;
    m, first :| LockedAt(h, m, t.phase.lock, first) && Met(t.forDuration, first, t.phase.check);
    s := StreakHasBeginning(h[..m + 1]);
    forall i | s <= i <= m && h[i].Evaluated? ensures h[i].triggered {
      assert h[..m + 1][i] == h[i];
    }
  }
}
