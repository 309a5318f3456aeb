/** The alert engine of internal/alerting/engine.go over the alert table.
  *
  * `Advance` is one atomic action of one evaluation: the locked update of the sustained map, the
  * duration check, the read of the active alert, the write, the publication. `Do` interleaves the
  * evaluations of all keys with acknowledgements and rule changes; evaluations of one key do not
  * overlap, and reads fail only where that does no harm. AlertOverlap drops both restrictions. */
module AlertEngine {
  import opened Options
  import opened AlertStore
  import opened AlertHistory

  datatype Notice = FiringNotice | ResolvedNotice

  datatype Phase =
    | Starting
    | Checking(lock: int, first: int)
    | Reading(lock: int, check: int)
    | Writing(lock: int, check: int, found: Option<Id>)
    | Publishing(notice: Notice)
    | Finished

  /** One evaluation of one key, with the rule as ListRules returned it. */
  datatype Task = Task(key: Key, forDuration: int, value: real, triggered: bool, message: string, phase: Phase)

  /** The table, the sustained map and the engine's monotone clock; then what only the past knows:
    * alert ids ever used, the entries and the notices of each key, the rules ever deleted. */
  datatype Shared = Shared(
    st: Store, sustained: map<Key, int>, clock: int,
    issued: set<Id>, hist: map<Key, History>, sent: map<Key, seq<Notice>>, deleted: set<string>)

  function Hist(sh: Shared, k: Key): History {
    if k in sh.hist then sh.hist[k] else []
  }

  function Log(sh: Shared, k: Key): seq<Notice> {
    if k in sh.sent then sh.sent[k] else []
  }

  function Record(sh: Shared, k: Key, e: Entry): Shared {
    sh.(hist := sh.hist[k := Hist(sh, k) + [e]])
  }

  /** What the environment answers: time passing on a clock, rows and errors. */
  datatype Choice =
    | Tick(elapsed: nat)
    | Found(id: Option<Id>)
    | ReadError
    | Stored(newId: Id, elapsed: nat)
    | StoreError
    | Go

  datatype Outcome = Blocked | Moved(sh: Shared, t: Task)

  function Close(sh: Shared, t: Task, lock: int, check: int, stored: bool, phase: Phase): Outcome {
    Moved(Record(sh, t.key, Evaluated(lock, check, t.forDuration, t.triggered, stored)), t.(phase := phase))
  }

  /** The part of the evaluation under the mutex. */
  function Sustain(sh: Shared, t: Task, now: int): Outcome {
    if t.triggered then
      var sustained := if t.key in sh.sustained then sh.sustained else sh.sustained[t.key := now];
      Moved(sh.(sustained := sustained, clock := now), t.(phase := Checking(now, sustained[t.key])))
    else
      Moved(sh.(sustained := sh.sustained - {t.key}, clock := now), t.(phase := Reading(now, now)))
  }

  /** After GetActiveAlert: only a missing alert is created and only a present one resolved. */
  function React(sh: Shared, t: Task, lock: int, check: int, found: Option<Id>): Outcome {
    if t.triggered == (found == None) then Moved(sh, t.(phase := Writing(lock, check, found)))
    else Close(sh, t, lock, check, true, Finished)
  }

  /** A failed read is taken for a missing alert: an evaluation that should resolve one does nothing. */
  function MissedRead(sh: Shared, t: Task, lock: int, check: int): Outcome {
    if t.triggered then Moved(sh, t.(phase := Writing(lock, check, None)))
    else Close(sh, t, lock, check, false, Finished)
  }

  function WriteAlert(sh: Shared, t: Task, lock: int, check: int, found: Option<Id>, newId: Id, elapsed: nat): Outcome {
    match found
    case None =>
      if newId in sh.issued then Blocked
      else (match CreateAlert(sh.st, newId, t.key, t.value, t.message, elapsed)
            case None => Blocked
            case Some(st) =>
              Close(sh.(st := st, issued := sh.issued + {newId}), t, lock, check, true, Publishing(FiringNotice)))
    case Some(id) =>
      match ResolveAlert(sh.st, id, t.value, elapsed)
      case None => Blocked
      case Some(st) => Close(sh.(st := st), t, lock, check, true, Publishing(ResolvedNotice))
  }

  /** One atomic action of an evaluation; `Blocked` when it cannot happen with this answer. */
  function Advance(sh: Shared, t: Task, ch: Choice): Outcome {
    match t.phase
    case Starting =>
      if ch.Tick? then Sustain(sh, t, sh.clock + ch.elapsed) else Blocked
    case Checking(lock, first) =>
      if !ch.Tick? then Blocked
      else
        var now := sh.clock + ch.elapsed;
        if Met(t.forDuration, first, now) then Moved(sh.(clock := now), t.(phase := Reading(lock, now)))
        else Close(sh.(clock := now), t, lock, now, true, Finished)
    case Reading(lock, check) =>
      if ch == ReadError then MissedRead(sh, t, lock, check)
      else if ch.Found? && (if ch.id == None then ActiveIds(sh.st, t.key) == {} else ch.id.value in ActiveIds(sh.st, t.key))
      then React(sh, t, lock, check, ch.id)
      else Blocked
    case Writing(lock, check, found) =>
      if ch.Stored? then WriteAlert(sh, t, lock, check, found, ch.newId, ch.elapsed)
      else if ch == StoreError then Close(sh, t, lock, check, false, Finished)
      else Blocked
    case Publishing(notice) =>
      if ch == Go then Moved(sh.(sent := sh.sent[t.key := Log(sh, t.key) + [notice]]), t.(phase := Finished))
      else Blocked
    case Finished => Blocked
  }

  // ---------- The interleaved system ----------

  /** At most one evaluation of each key is in flight. */
  datatype World = World(sh: Shared, tasks: map<Key, Task>)

  datatype Step =
    | Begin(task: Task)
    | Act(key: Key, ch: Choice)
    | Ack(id: Id, user: string, comment: string, elapsed: nat)
    | ChangeRule(rule: Rule)
    | RemoveRule(ruleId: string)

  function Start(dbClock: int, clock: int): World {
    World(Shared(Store(map[], map[], dbClock), map[], clock, {}, map[], map[], {}), map[])
  }

  /** The rule goes, its alerts with it; the sustained map is not told. */
  function Erase(sh: Shared, rule: string): Shared {
    sh.(st := DeleteRule(sh.st, rule), deleted := sh.deleted + {rule},
        hist := map k | k in sh.hist :: if k.rule == rule then sh.hist[k] + [Erased] else sh.hist[k])
  }

  /** A triggered evaluation's read fails although the key has an active alert. */
  predicate Misleading(sh: Shared, t: Task, ch: Choice) {
    ch == ReadError && t.triggered && ActiveIds(sh.st, t.key) != {}
  }

  function Do(w: World, step: Step): Option<World> {
    match step
    case Begin(t) =>
      if t.key in w.tasks || t.phase != Starting then None else Some(w.(tasks := w.tasks[t.key := t]))
    case Act(k, ch) =>
      if k !in w.tasks || Misleading(w.sh, w.tasks[k], ch) then None
      else (match Advance(w.sh, w.tasks[k], ch)
            case Blocked => None
            case Moved(sh, t) => Some(World(sh, if t.phase == Finished then w.tasks - {k} else w.tasks[k := t])))
    case Ack(id, user, comment, elapsed) =>
      Some(w.(sh := w.sh.(st := Apply(w.sh.st, Acknowledge(id, user, comment, elapsed)))))
    case ChangeRule(rule) => Some(w.(sh := w.sh.(st := PutRule(w.sh.st, rule))))
    case RemoveRule(rule) => Some(w.(sh := Erase(w.sh, rule)))
  }

  function Execute(w: World, steps: seq<Step>): Option<World> {
    if steps == [] then Some(w)
    else
      match Execute(w, steps[..|steps| - 1])
      case None => None
      case Some(mid) => Do(mid, steps[|steps| - 1])
  }

  // ---------- Runs ----------

  /** A run given by the worlds it passes through. */
  lemma {:induction false} RunThrough(ws: seq<World>, steps: seq<Step>)
    requires |ws| == |steps| + 1
    requires forall i :: 0 <= i < |steps| ==> Do(ws[i], steps[i]) == Some(ws[i + 1])
    ensures Execute(ws[0], steps) == Some(ws[|steps|])
  {
    if steps == [] {
    } else {
      var n := |steps| - 1;
      RunThrough(ws[..n + 1], steps[..n]);
      assert Do(ws[n], steps[n]) == Some(ws[n + 1]);
    }
  }

  lemma ExecuteSnoc(w: World, steps: seq<Step>, step: Step)
    ensures Execute(w, steps + [step])
            == match Execute(w, steps)
               case None => None
               case Some(mid) => Do(mid, step)
  {
    assert (steps + [step])[..|steps|] == steps;
  }

  lemma {:induction false} ExecuteConcat(w: World, first: seq<Step>, second: seq<Step>)
    ensures Execute(w, first + second)
            == match Execute(w, first)
               case None => None
               case Some(mid) => Execute(mid, second)
  {
    if second == [] {
      assert first + second == first;
    } else {
      var init, last := second[..|second| - 1], second[|second| - 1];
      assert second == init + [last] && first + second == (first + init) + [last];
      ExecuteConcat(w, first, init);
      ExecuteSnoc(w, first + init, last);
      if Execute(w, first).Some? {
        ExecuteSnoc(Execute(w, first).value, init, last);
      }
    }
  }

  lemma ExecuteOne(w: World, step: Step)
    ensures Execute(w, [step]) == Do(w, step)
  {
    assert [step][..0] == [];
  }

  // ---------- The invariant ----------

  ghost predicate AtMostOne(ids: set<Id>) {
    forall a, b :: a in ids && b in ids ==> a == b
  }

  /** The table says what the entries say. */
  ghost predicate Matches(sh: Shared, k: Key) {
    && AtMostOne(ActiveIds(sh.st, k))
    && (ActiveIds(sh.st, k) != {} <==> Live(Hist(sh, k)))
  }

  ghost predicate SustainedIs(sh: Shared, k: Key, o: Option<int>) {
    (k in sh.sustained <==> o.Some?) && (k in sh.sustained ==> sh.sustained[k] == o.value)
  }

  /** All clock readings of the entries are at most `t`. */
  ghost predicate Before(h: History, t: int) {
    forall i :: 0 <= i < |h| && h[i].Evaluated? ==> h[i].check <= t
  }

  /** An evaluation past its duration check. */
  ghost predicate Ready(sh: Shared, t: Task, lock: int, check: int) {
    var h := Hist(sh, t.key);
    && Before(h, lock) && lock <= check <= sh.clock
    && if t.triggered then
         SustainedIs(sh, t.key, Some(StreakStart(h).GetOr(lock))) && Met(t.forDuration, StreakStart(h).GetOr(lock), check)
       else SustainedIs(sh, t.key, None)
  }

  ghost predicate TaskOk(sh: Shared, t: Task) {
    var h := Hist(sh, t.key);
    match t.phase
    case Starting => SustainedIs(sh, t.key, StreakStart(h))
    case Checking(lock, first) =>
      && t.triggered && first == StreakStart(h).GetOr(lock) && SustainedIs(sh, t.key, Some(first))
      && Before(h, lock) && lock <= sh.clock
    case Reading(lock, check) => Ready(sh, t, lock, check)
    case Writing(lock, check, found) =>
      && Ready(sh, t, lock, check) && t.triggered == (found == None)
      && (found == None ==> ActiveIds(sh.st, t.key) == {})
      && (found.Some? ==>
            && found.value in sh.issued && ActiveIds(sh.st, t.key) <= {found.value}
            && (found.value in sh.st.alerts ==> sh.st.alerts[found.value].key == t.key)
            && (t.key.rule !in sh.deleted ==> ActiveIds(sh.st, t.key) == {found.value}))
    case Publishing(_) => SustainedIs(sh, t.key, StreakStart(h))
    case Finished => false
  }

  /** Notices sent or about to be sent. */
  function Notices(w: World, k: Key): seq<Notice> {
    Log(w.sh, k) + if k in w.tasks && w.tasks[k].phase.Publishing? then [w.tasks[k].phase.notice] else []
  }

  ghost predicate Alternates(log: seq<Notice>) {
    forall i :: 0 <= i < |log| ==> log[i] == if i % 2 == 0 then FiringNotice else ResolvedNotice
  }

  ghost predicate NoticesOk(w: World, k: Key) {
    k.rule !in w.sh.deleted ==>
      && Alternates(Notices(w, k))
      && (|Notices(w, k)| % 2 == 1 <==> ActiveIds(w.sh.st, k) != {})
  }

  ghost predicate KeyOk(w: World, k: Key) {
    && Matches(w.sh, k)
    && Timed(Hist(w.sh, k)) && Before(Hist(w.sh, k), w.sh.clock)
    && NoticesOk(w, k)
    && (k !in w.tasks ==> SustainedIs(w.sh, k, StreakStart(Hist(w.sh, k))))
    && (k in w.tasks ==> w.tasks[k].key == k && TaskOk(w.sh, w.tasks[k]))
  }

  ghost predicate Inv(w: World) {
    && w.sh.st.alerts.Keys <= w.sh.issued
    && forall k :: KeyOk(w, k)
  }

  // ---------- One more entry ----------

  lemma EntryAppended(h: History, e: Entry)
    ensures StreakStart(h + [e]) ==
            if e.Erased? then StreakStart(h)
            else if !e.triggered then None
            else Some(StreakStart(h).GetOr(e.lock))
    ensures Live(h + [e]) <==>
            if e.Erased? then false
            else if !e.triggered then Live(h) && !e.stored
            else Live(h) || (e.stored && Met(e.forDuration, StreakStart(h).GetOr(e.lock), e.check))
  {
    assert (h + [e])[..|h|] == h;
  }

  lemma TimesAppended(h: History, e: Entry, clock: int)
    requires Timed(h) && Before(h, clock)
    requires e.Evaluated? ==> Before(h, e.lock) && e.lock <= e.check <= clock
    ensures Timed(h + [e]) && Before(h + [e], clock)
  {}

  lemma NoticeAppended(log: seq<Notice>, n: Notice)
    requires Alternates(log) && (n == FiringNotice <==> |log| % 2 == 0)
    ensures Alternates(log + [n])
  {}

  // ---------- Other keys ----------

  /** Nothing the invariant of key `k` speaks of differs, except that time may have passed. */
  ghost predicate SameFor(sh: Shared, sh': Shared, k: Key) {
    && Hist(sh', k) == Hist(sh, k) && Log(sh', k) == Log(sh, k)
    && (k in sh.sustained <==> k in sh'.sustained) && (k in sh.sustained ==> sh'.sustained[k] == sh.sustained[k])
    && ActiveIds(sh'.st, k) == ActiveIds(sh.st, k)
    && sh.clock <= sh'.clock && sh.issued <= sh'.issued
    && sh.deleted <= sh'.deleted
    && (forall id :: id in sh.issued && id in sh'.st.alerts ==>
          id in sh.st.alerts && sh'.st.alerts[id].key == sh.st.alerts[id].key)
  }

  lemma KeyFrame(w: World, w': World, k: Key)
    requires KeyOk(w, k) && SameFor(w.sh, w'.sh, k)
    requires (k in w.tasks <==> k in w'.tasks) && (k in w.tasks ==> w'.tasks[k] == w.tasks[k])
    ensures KeyOk(w', k)
  {}

  lemma WriteElsewhere(sh: Shared, t: Task, ch: Choice, k: Key)
    requires sh.st.alerts.Keys <= sh.issued && t.phase.Writing? && ch.Stored?
    requires TaskOk(sh, t) && t.key != k && Advance(sh, t, ch).Moved?
    ensures SameFor(sh, Advance(sh, t, ch).sh, k)
  {
    match t.phase.found
    case None => ActiveAfterCreate(sh.st, ch.newId, t.key, t.value, t.message, ch.elapsed, k);
    case Some(id) =>
      ActiveAfterResolve(sh.st, id, t.value, ch.elapsed, k);
      assert id !in ActiveIds(sh.st, k);
  }

  lemma CloseElsewhere(sh: Shared, t: Task, lock: int, check: int, stored: bool, phase: Phase, k: Key)
    requires t.key != k
    ensures SameFor(sh, Close(sh, t, lock, check, stored, phase).sh, k)
  {}

  /** An evaluation of another key leaves `k` alone. */
  lemma AdvanceElsewhere(sh: Shared, t: Task, ch: Choice, k: Key)
    requires sh.st.alerts.Keys <= sh.issued
    requires TaskOk(sh, t) && t.key != k && Advance(sh, t, ch).Moved?
    ensures SameFor(sh, Advance(sh, t, ch).sh, k)
  {
    match t.phase
    case Writing(lock, check, _) =>
      if ch.Stored? {
        WriteElsewhere(sh, t, ch, k);
      } else {
        CloseElsewhere(sh, t, lock, check, false, Finished, k);
      }
    case Reading(lock, check) =>
      CloseElsewhere(sh, t, lock, check, ch != ReadError, Finished, k);
    case _ =>
  }

  lemma AdvanceIssues(sh: Shared, t: Task, ch: Choice)
    requires sh.st.alerts.Keys <= sh.issued && Advance(sh, t, ch).Moved?
    ensures Advance(sh, t, ch).sh.st.alerts.Keys <= Advance(sh, t, ch).sh.issued
  {}

  // ---------- The key being evaluated ----------

  /** The key's state after an action of its own evaluation. */
  ghost predicate After(sh: Shared, sh': Shared, t: Task, t': Task) {
    && t'.key == t.key
    && Matches(sh', t.key)
    && Timed(Hist(sh', t.key)) && Before(Hist(sh', t.key), sh'.clock)
    && (t'.phase == Finished ==> SustainedIs(sh', t.key, StreakStart(Hist(sh', t.key))))
    && (t'.phase != Finished ==> TaskOk(sh', t'))
  }

  lemma StartingStep(sh: Shared, t: Task, ch: Choice)
    requires t.phase == Starting && Advance(sh, t, ch).Moved? && TaskOk(sh, t)
    requires Matches(sh, t.key) && Timed(Hist(sh, t.key)) && Before(Hist(sh, t.key), sh.clock)
    ensures After(sh, Advance(sh, t, ch).sh, t, Advance(sh, t, ch).t)
  {}

  /** The entry an evaluation leaves behind. */
  function EntryOf(t: Task, lock: int, check: int, stored: bool): Entry {
    Evaluated(lock, check, t.forDuration, t.triggered, stored)
  }

  /** Recording the entry of an evaluation whose sustained entry is already up to date. */
  lemma Closing(sh: Shared, t: Task, lock: int, check: int, stored: bool, phase: Phase)
    requires Before(Hist(sh, t.key), lock) && lock <= check <= sh.clock
    requires SustainedIs(sh, t.key, if t.triggered then Some(StreakStart(Hist(sh, t.key)).GetOr(lock)) else None)
    requires AtMostOne(ActiveIds(sh.st, t.key))
    requires Timed(Hist(sh, t.key)) && Before(Hist(sh, t.key), sh.clock)
    requires ActiveIds(sh.st, t.key) != {} <==> Live(Hist(sh, t.key) + [EntryOf(t, lock, check, stored)])
    requires phase == Finished || phase.Publishing?
    ensures After(sh, Close(sh, t, lock, check, stored, phase).sh, t, Close(sh, t, lock, check, stored, phase).t)
  {
    var e := EntryOf(t, lock, check, stored);
    EntryAppended(Hist(sh, t.key), e);
    TimesAppended(Hist(sh, t.key), e, sh.clock);
    assert Hist(Record(sh, t.key, e), t.key) == Hist(sh, t.key) + [e];
  }

  lemma UnmetChangesNothing(h: History, e: Entry)
    requires e.Evaluated? && e.triggered && !Met(e.forDuration, StreakStart(h).GetOr(e.lock), e.check)
    ensures Live(h + [e]) <==> Live(h)
  {
    EntryAppended(h, e);
  }

  lemma CheckingStep(sh: Shared, t: Task, ch: Choice)
    requires t.phase.Checking? && Advance(sh, t, ch).Moved? && TaskOk(sh, t)
    requires Matches(sh, t.key) && Timed(Hist(sh, t.key)) && Before(Hist(sh, t.key), sh.clock)
    ensures After(sh, Advance(sh, t, ch).sh, t, Advance(sh, t, ch).t)
  {
    var now := sh.clock + ch.elapsed;
    var lock := t.phase.lock;
    if !Met(t.forDuration, t.phase.first, now) {
      UnmetChangesNothing(Hist(sh, t.key), EntryOf(t, lock, now, true));
      var later := sh.(clock := now);
      assert Matches(later, t.key) && Hist(later, t.key) == Hist(sh, t.key);
      Closing(later, t, lock, now, true, Finished);
      assert Advance(sh, t, ch) == Close(later, t, lock, now, true, Finished);
    } else {
      assert Advance(sh, t, ch) == Moved(sh.(clock := now), t.(phase := Reading(lock, now)));
    }
  }

  lemma ReadingStep(sh: Shared, t: Task, ch: Choice)
    requires t.phase.Reading? && !Misleading(sh, t, ch) && Advance(sh, t, ch).Moved? && TaskOk(sh, t)
    requires sh.st.alerts.Keys <= sh.issued
    requires Matches(sh, t.key) && Timed(Hist(sh, t.key)) && Before(Hist(sh, t.key), sh.clock)
    ensures After(sh, Advance(sh, t, ch).sh, t, Advance(sh, t, ch).t)
  {
    if ch == ReadError {
      if !t.triggered {
        EntryAppended(Hist(sh, t.key), EntryOf(t, t.phase.lock, t.phase.check, false));
        Closing(sh, t, t.phase.lock, t.phase.check, false, Finished);
      }
    } else if t.triggered != (ch.id == None) {
      EntryAppended(Hist(sh, t.key), EntryOf(t, t.phase.lock, t.phase.check, true));
      Closing(sh, t, t.phase.lock, t.phase.check, true, Finished);
    }
  }

  lemma WritingStep(sh: Shared, t: Task, ch: Choice)
    requires t.phase.Writing? && Advance(sh, t, ch).Moved? && TaskOk(sh, t)
    requires Matches(sh, t.key) && Timed(Hist(sh, t.key)) && Before(Hist(sh, t.key), sh.clock)
    ensures After(sh, Advance(sh, t, ch).sh, t, Advance(sh, t, ch).t)
  {
    var lock, check := t.phase.lock, t.phase.check;
    EntryAppended(Hist(sh, t.key), EntryOf(t, lock, check, ch != StoreError));
    if ch == StoreError {
      Closing(sh, t, lock, check, false, Finished);
    } else if t.phase.found == None {
      var st := CreateAlert(sh.st, ch.newId, t.key, t.value, t.message, ch.elapsed).value;
      ActiveAfterCreate(sh.st, ch.newId, t.key, t.value, t.message, ch.elapsed, t.key);
      Closing(sh.(st := st, issued := sh.issued + {ch.newId}), t, lock, check, true, Publishing(FiringNotice));
    } else {
      var st := ResolveAlert(sh.st, t.phase.found.value, t.value, ch.elapsed).value;
      ActiveAfterResolve(sh.st, t.phase.found.value, t.value, ch.elapsed, t.key);
      Closing(sh.(st := st), t, lock, check, true, Publishing(ResolvedNotice));
    }
  }

  lemma OwnStep(sh: Shared, t: Task, ch: Choice)
    requires !Misleading(sh, t, ch) && Advance(sh, t, ch).Moved? && TaskOk(sh, t)
    requires sh.st.alerts.Keys <= sh.issued
    requires Matches(sh, t.key) && Timed(Hist(sh, t.key)) && Before(Hist(sh, t.key), sh.clock)
    ensures After(sh, Advance(sh, t, ch).sh, t, Advance(sh, t, ch).t)
  {
    match t.phase
    case Starting => StartingStep(sh, t, ch);
    case Checking(_, _) => CheckingStep(sh, t, ch);
    case Reading(_, _) => ReadingStep(sh, t, ch);
    case Writing(_, _, _) => WritingStep(sh, t, ch);
    case Publishing(_) =>
    case Finished =>
  }

  lemma OwnNotices(w: World, k: Key, ch: Choice)
    requires Inv(w) && k in w.tasks && Do(w, Act(k, ch)).Some?
    ensures NoticesOk(Do(w, Act(k, ch)).value, k)
  {
    var w' := Do(w, Act(k, ch)).value;
    var t := w.tasks[k];
    assert KeyOk(w, k);
    assert Log(w.sh, k) + [] == Log(w.sh, k) && Log(w'.sh, k) + [] == Log(w'.sh, k);
    if k.rule !in w'.sh.deleted && t.phase.Writing? && ch.Stored? {
      NoticeWritten(w, k, ch);
    }
  }

  lemma NoticeWritten(w: World, k: Key, ch: Choice)
    requires KeyOk(w, k) && k in w.tasks && Do(w, Act(k, ch)).Some?
    requires k.rule !in w.sh.deleted && w.tasks[k].phase.Writing? && ch.Stored?
    ensures NoticesOk(Do(w, Act(k, ch)).value, k)
  {
    if w.tasks[k].phase.found == None {
      FiringWritten(w, k, ch);
    } else {
      ResolvedWritten(w, k, ch);
    }
  }

  lemma FiringWritten(w: World, k: Key, ch: Choice)
    requires KeyOk(w, k) && k in w.tasks && Do(w, Act(k, ch)).Some?
    requires k.rule !in w.sh.deleted && w.tasks[k].phase.Writing? && w.tasks[k].phase.found == None && ch.Stored?
    ensures NoticesOk(Do(w, Act(k, ch)).value, k)
  {
    var t := w.tasks[k];
    var w' := Do(w, Act(k, ch)).value;
    assert Notices(w, k) == Log(w.sh, k);
    assert Notices(w', k) == Log(w.sh, k) + [FiringNotice];
    ActiveAfterCreate(w.sh.st, ch.newId, k, t.value, t.message, ch.elapsed, k);
    NoticeAppended(Log(w.sh, k), FiringNotice);
  }

  lemma ResolvedWritten(w: World, k: Key, ch: Choice)
    requires KeyOk(w, k) && k in w.tasks && Do(w, Act(k, ch)).Some?
    requires k.rule !in w.sh.deleted && w.tasks[k].phase.Writing? && w.tasks[k].phase.found != None && ch.Stored?
    ensures NoticesOk(Do(w, Act(k, ch)).value, k)
  {
    var t := w.tasks[k];
    var w' := Do(w, Act(k, ch)).value;
    assert Notices(w, k) == Log(w.sh, k);
    assert Notices(w', k) == Log(w.sh, k) + [ResolvedNotice];
    ActiveAfterResolve(w.sh.st, t.phase.found.value, t.value, ch.elapsed, k);
    NoticeAppended(Log(w.sh, k), ResolvedNotice);
  }

  // ---------- Every step keeps the invariant ----------

  lemma ActKeepsInv(w: World, k: Key, ch: Choice)
    requires Inv(w) && Do(w, Act(k, ch)).Some?
    ensures Inv(Do(w, Act(k, ch)).value)
  {
    var w' := Do(w, Act(k, ch)).value;
    assert KeyOk(w, k);
    AdvanceIssues(w.sh, w.tasks[k], ch);
    forall k' ensures KeyOk(w', k') {
      assert KeyOk(w, k');
      if k' == k {
        OwnStep(w.sh, w.tasks[k], ch);
        OwnNotices(w, k, ch);
      } else {
        AdvanceElsewhere(w.sh, w.tasks[k], ch, k');
        KeyFrame(w, w', k');
      }
    }
  }

  lemma EraseKeepsKey(w: World, rule: string, k: Key)
    requires Inv(w)
    ensures KeyOk(w.(sh := Erase(w.sh, rule)), k)
  {
    assert KeyOk(w, k);
    var w' := w.(sh := Erase(w.sh, rule));
    ActiveAfterDelete(w.sh.st, rule, k);
    if k.rule == rule {
      if k in w.sh.hist {
        EntryAppended(Hist(w.sh, k), Erased);
        TimesAppended(Hist(w.sh, k), Erased, w.sh.clock);
      }
    } else {
      KeyFrame(w, w', k);
    }
  }

  lemma AckKeepsInv(w: World, id: Id, user: string, comment: string, elapsed: nat)
    requires Inv(w)
    ensures Inv(Do(w, Ack(id, user, comment, elapsed)).value)
  {
    var w' := Do(w, Ack(id, user, comment, elapsed)).value;
    forall k ensures KeyOk(w', k) {
      assert KeyOk(w, k);
      if AcknowledgeAlert(w.sh.st, id, user, comment, elapsed).Some? {
        ActiveAfterAcknowledge(w.sh.st, id, user, comment, elapsed, k);
      }
      KeyFrame(w, w', k);
    }
  }

  lemma StepKeepsInv(w: World, step: Step)
    requires Inv(w) && Do(w, step).Some?
    ensures Inv(Do(w, step).value)
  {
    var w' := Do(w, step).value;
    match step
    case Begin(t) =>
      forall k ensures KeyOk(w', k) {
        assert KeyOk(w, k);
      }
    case Act(k, ch) => ActKeepsInv(w, k, ch);
    case Ack(id, user, comment, elapsed) => AckKeepsInv(w, id, user, comment, elapsed);
    case ChangeRule(rule) =>
      forall k ensures KeyOk(w', k) {
        assert KeyOk(w, k);
        KeyFrame(w, w', k);
      }
    case RemoveRule(rule) =>
      forall k ensures KeyOk(w', k) {
        EraseKeepsKey(w, rule, k);
      }
  }

  lemma {:induction false} Reachable(dbClock: int, clock: int, steps: seq<Step>)
    requires Execute(Start(dbClock, clock), steps).Some?
    ensures Inv(Execute(Start(dbClock, clock), steps).value)
  {
    if steps == [] {
      forall k ensures KeyOk(Start(dbClock, clock), k) {}
    } else {
      var n := |steps| - 1;
      Reachable(dbClock, clock, steps[..n]);
      StepKeepsInv(Execute(Start(dbClock, clock), steps[..n]).value, steps[n]);
    }
  }
}
