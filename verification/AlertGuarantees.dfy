/** What the alert engine promises in every reachable state when evaluations of a key do not overlap
  * and reads fail only where that does no harm. */
module AlertGuarantees {
  import opened Options
  import opened AlertStore
  import opened AlertHistory
  import opened AlertEngine

  /** Never two active alerts for one rule and agent, between any two actions of any evaluation. */
  lemma AtMostOneActiveAlert(dbClock: int, clock: int, steps: seq<Step>, k: Key, a: Id, b: Id)
    requires Execute(Start(dbClock, clock), steps).Some?
    requires var ids := ActiveIds(Execute(Start(dbClock, clock), steps).value.sh.st, k); a in ids && b in ids
    ensures a == b
  {
    Reachable(dbClock, clock, steps);
    assert KeyOk(Execute(Start(dbClock, clock), steps).value, k);
  }

  /** While no evaluation of a key is in flight, one timestamp and one row say exactly what its
    * whole history says: the timestamp is the start of the running streak, and a row is active
    * exactly when some evaluation qualified and nothing has ended its alert since. */
  lemma EngineRefinesHistory(dbClock: int, clock: int, steps: seq<Step>, k: Key)
    requires Execute(Start(dbClock, clock), steps).Some?
    requires k !in Execute(Start(dbClock, clock), steps).value.tasks
    ensures var sh := Execute(Start(dbClock, clock), steps).value.sh;
            var h := Hist(sh, k);
            && (ActiveIds(sh.st, k) != {} <==> exists j: nat :: Standing(h, j))
            && (k in sh.sustained <==> exists s: nat :: BeginsStreak(h, s))
            && (forall s: nat :: BeginsStreak(h, s) ==> k in sh.sustained && sh.sustained[k] == h[s].lock)
            && Timed(h)
  {
    Reachable(dbClock, clock, steps);
    var w := Execute(Start(dbClock, clock), steps).value;
    assert KeyOk(w, k);
    LiveMeaning(Hist(w.sh, k));
    StreakStartMeaning(Hist(w.sh, k));
  }

  /** With one rule, no refused write and no deletion: an alert is active exactly when the key is
    * sustained and its last evaluation came at least `for_duration` after the streak began. */
  lemma ActiveMeansSustained(dbClock: int, clock: int, steps: seq<Step>, k: Key, forDuration: int)
    requires Execute(Start(dbClock, clock), steps).Some?
    requires k !in Execute(Start(dbClock, clock), steps).value.tasks
    requires Undisturbed(Hist(Execute(Start(dbClock, clock), steps).value.sh, k), forDuration)
    ensures var sh := Execute(Start(dbClock, clock), steps).value.sh;
            var h := Hist(sh, k);
            ActiveIds(sh.st, k) != {} <==>
              && k in sh.sustained && h != []
              && h[|h| - 1].check - sh.sustained[k] >= (if forDuration > 0 then forDuration else 0) * SECOND
  {
    Reachable(dbClock, clock, steps);
    var w := Execute(Start(dbClock, clock), steps).value;
    assert KeyOk(w, k);
    FixedRuleMeaning(Hist(w.sh, k), forDuration);
  }

  /** The step is the insert of an alert for `k`. */
  ghost predicate IsInsert(w: World, step: Step, k: Key) {
    && step.Act? && step.key == k && step.ch.Stored?
    && k in w.tasks && w.tasks[k].phase.Writing? && w.tasks[k].triggered
  }

  /** What the action that inserts does to its key. */
  lemma InsertStep(w: World, step: Step, k: Key)
    requires Inv(w) && IsInsert(w, step, k) && Do(w, step).Some?
    ensures var w' := Do(w, step).value;
            var t, newId := w.tasks[k], step.ch.newId;
            && ActiveIds(w.sh.st, k) == {} && ActiveIds(w'.sh.st, k) == {newId}
            && newId in w'.sh.st.alerts
            && w'.sh.st.alerts[newId].status == Firing && w'.sh.st.alerts[newId].lastValue == t.value
            && w'.sh.st.alerts[newId].message == t.message && w'.sh.st.alerts[newId].key == k
            && Hist(w'.sh, k) == Hist(w.sh, k) + [EntryOf(t, t.phase.lock, t.phase.check, true)]
  {
    assert KeyOk(w, k);
    var t := w.tasks[k];
    ActiveAfterCreate(w.sh.st, step.ch.newId, k, t.value, t.message, step.ch.elapsed, k);
  }

  /** ... and to its history: the new entry is a firing. */
  lemma InsertFires(w: World, step: Step, k: Key)
    requires Inv(w) && IsInsert(w, step, k) && Do(w, step).Some?
    ensures var w' := Do(w, step).value;
            var h, n := Hist(w'.sh, k), |Hist(w.sh, k)|;
            && Inv(w') && |h| == n + 1 && h[..n] == Hist(w.sh, k)
            && h[n].Evaluated? && h[n].forDuration == w.tasks[k].forDuration
            && FiresAt(h, n) && Timed(h)
  {
    StepKeepsInv(w, step);
    InsertStep(w, step, k);
    TableMatches(w, k);
    TableMatches(Do(w, step).value, k);
    var h, n := Hist(Do(w, step).value.sh, k), |Hist(w.sh, k)|;
    assert h[..n] == Hist(w.sh, k) && h[..n + 1] == h;
  }

  lemma TableMatches(w: World, k: Key)
    requires Inv(w)
    ensures ActiveIds(w.sh.st, k) != {} <==> Live(Hist(w.sh, k))
    ensures Timed(Hist(w.sh, k))
  {
    assert KeyOk(w, k);
  }

  /** An insert happens only at an evaluation that makes the key's alert appear, and is never early. */
  lemma InsertsAreFirings(dbClock: int, clock: int, steps: seq<Step>, w: World, step: Step, k: Key) returns (s: nat)
    requires Execute(Start(dbClock, clock), steps) == Some(w)
    requires IsInsert(w, step, k) && Do(w, step).Some?
    ensures var w' := Do(w, step).value;
            var h, newId := Hist(w'.sh, k), step.ch.newId;
            && ActiveIds(w.sh.st, k) == {} && ActiveIds(w'.sh.st, k) == {newId}
            && newId in w'.sh.st.alerts
            && w'.sh.st.alerts[newId].status == Firing && w'.sh.st.alerts[newId].lastValue == w.tasks[k].value
            && w'.sh.st.alerts[newId].message == w.tasks[k].message && w'.sh.st.alerts[newId].key == k
            && h != [] && FiresAt(h, |h| - 1) && Timed(h)
            && s < |h| && h[s].Evaluated? && h[|h| - 1].Evaluated?
            && (forall i :: s <= i < |h| && h[i].Evaluated? ==> h[i].triggered)
            && (w.tasks[k].forDuration > 0 ==>
                  h[|h| - 1].check - h[s].lock >= w.tasks[k].forDuration * SECOND)
  {
    Reachable(dbClock, clock, steps);
    InsertStep(w, step, k);
    InsertFires(w, step, k);
    s := NoEarlyFiring(Hist(Do(w, step).value.sh, k), |Hist(w.sh, k)|);
  }

  // ---------- Two inserts of one run ----------

  /** An action adds at most the entry of an evaluation. */
  lemma AdvanceHist(sh: Shared, t: Task, ch: Choice, k: Key)
    requires Advance(sh, t, ch).Moved?
    ensures var h, h' := Hist(sh, k), Hist(Advance(sh, t, ch).sh, k);
            h <= h' && forall x :: |h| <= x < |h'| ==> h'[x].Evaluated?
  {}

  lemma HistStep(w: World, step: Step, k: Key)
    requires Inv(w) && Do(w, step).Some?
    ensures var h, h' := Hist(w.sh, k), Hist(Do(w, step).value.sh, k);
            h <= h' && (step != RemoveRule(k.rule) ==> forall x :: |h| <= x < |h'| ==> h'[x].Evaluated?)
  {
    if step.Act? {
      assert KeyOk(w, step.key);
      AdvanceHist(w.sh, w.tasks[step.key], step.ch, k);
    }
  }

  /** A key's history only grows, and only a deletion of its rule adds an Erased entry. */
  lemma {:induction false} HistGrows(w: World, steps: seq<Step>, k: Key)
    requires Inv(w) && Execute(w, steps).Some?
    ensures Inv(Execute(w, steps).value)
    ensures var h, h' := Hist(w.sh, k), Hist(Execute(w, steps).value.sh, k);
            h <= h' && (RemoveRule(k.rule) !in steps ==> forall x :: |h| <= x < |h'| ==> h'[x].Evaluated?)
  {
    if steps == [] {
    } else {
      var n := |steps| - 1;
      HistGrows(w, steps[..n], k);
      var mid := Execute(w, steps[..n]).value;
      StepKeepsInv(mid, steps[n]);
      HistStep(mid, steps[n], k);
      assert steps[n] in steps && forall s :: s in steps[..n] ==> s in steps;
    }
  }

  lemma FiresInLonger(h: History, h': History, n: nat)
    requires n < |h| && h <= h' && FiresAt(h, n)
    ensures FiresAt(h', n)
  {
    assert h'[..n + 1] == h[..n + 1] && h'[..n] == h[..n];
  }

  /** Two inserts of one key in one run: between their entries `p` and `q` of the key's history the
    * alert was ended, and unless the rule was deleted in between the later one comes at least its
    * `for_duration` after the earlier. */
  lemma InsertsAreApart(dbClock: int, clock: int, steps: seq<Step>, w: World, first: Step,
                        between: seq<Step>, v: World, second: Step, k: Key) returns (p: nat, m: nat, q: nat)
    requires Execute(Start(dbClock, clock), steps) == Some(w) && IsInsert(w, first, k) && Do(w, first).Some?
    requires Execute(Do(w, first).value, between) == Some(v) && IsInsert(v, second, k) && Do(v, second).Some?
    ensures p == |Hist(w.sh, k)| && q == |Hist(v.sh, k)| && p < m < q
    ensures var h, d := Hist(Do(v, second).value.sh, k), v.tasks[k].forDuration;
            && |h| == q + 1 && FiresAt(h, p) && Ends(h[m]) && FiresAt(h, q)
            && h[p].Evaluated? && h[q].Evaluated?
            && (RemoveRule(k.rule) !in between && d > 0 ==> h[q].check - h[p].check >= d * SECOND)
  {
    Reachable(dbClock, clock, steps);
    InsertFires(w, first, k);
    HistGrows(Do(w, first).value, between, k);
    InsertFires(v, second, k);
    var h := Hist(Do(v, second).value.sh, k);
    p, q := |Hist(w.sh, k)|, |Hist(v.sh, k)|;
    assert Hist(Do(w, first).value.sh, k) <= h;
    FiresInLonger(Hist(Do(w, first).value.sh, k), h, p);
    m := FiringsAreApart(h, p, q);
  }

  // ---------- Notices ----------

  function CountOf(log: seq<Notice>, n: Notice): nat {
    if log == [] then 0 else CountOf(log[..|log| - 1], n) + if log[|log| - 1] == n then 1 else 0
  }

  lemma {:induction false} AlternatingCounts(log: seq<Notice>)
    requires Alternates(log)
    ensures CountOf(log, FiringNotice) == (|log| + 1) / 2 && CountOf(log, ResolvedNotice) == |log| / 2
  {
    if log == [] {
    } else {
      AlternatingCounts(log[..|log| - 1]);
    }
  }

  lemma SmallSet(ids: set<Id>)
    requires AtMostOne(ids)
    ensures |ids| == if ids == {} then 0 else 1
  {
    if ids != {} {
      var id :| id in ids;
      assert ids == {id};
    }
  }

  /** For a rule that was never deleted, firing and resolved notices of a key strictly alternate,
    * firing first, and the surplus of firings is the number of active alerts. */
  lemma NoticesAlternate(dbClock: int, clock: int, steps: seq<Step>, k: Key)
    requires Execute(Start(dbClock, clock), steps).Some?
    requires var w := Execute(Start(dbClock, clock), steps).value; k !in w.tasks && k.rule !in w.sh.deleted
    ensures var sh := Execute(Start(dbClock, clock), steps).value.sh;
            && (forall i :: 0 <= i < |Log(sh, k)| ==>
                  Log(sh, k)[i] == if i % 2 == 0 then FiringNotice else ResolvedNotice)
            && CountOf(Log(sh, k), FiringNotice) - CountOf(Log(sh, k), ResolvedNotice) == |ActiveIds(sh.st, k)|
  {
    Reachable(dbClock, clock, steps);
    var w := Execute(Start(dbClock, clock), steps).value;
    assert KeyOk(w, k);
    assert Notices(w, k) == Log(w.sh, k);
    AlternatingCounts(Log(w.sh, k));
    SmallSet(ActiveIds(w.sh.st, k));
  }

  // ---------- The string key of the sustained map ----------

  function SustainedKey(k: Key): string {
    k.rule + ":" + k.agent
  }

  lemma SameLengthRules(k: Key, l: Key)
    requires |k.rule| == |l.rule| && SustainedKey(k) == SustainedKey(l)
    ensures k == l
  {
    var s, n := SustainedKey(k), |k.rule|;
    assert s[..n] == k.rule && SustainedKey(l)[..n] == l.rule;
    assert s[n + 1..] == k.agent && SustainedKey(l)[n + 1..] == l.agent;
  }

  /** The string determines rule and agent when rule ids hold no colon. */
  lemma SustainedKeyInjective(k: Key, l: Key)
    requires ':' !in k.rule && ':' !in l.rule && SustainedKey(k) == SustainedKey(l)
    ensures k == l
  {
    var s, t := SustainedKey(k), SustainedKey(l);
    assert s[|k.rule|] == ':' && t[|l.rule|] == ':';
    assert forall i :: 0 <= i < |k.rule| ==> s[i] == k.rule[i];
    assert forall i :: 0 <= i < |l.rule| ==> t[i] == l.rule[i];
    SameLengthRules(k, l);
  }

  /** Two different keys share a string exactly when one rule id continues the other after a colon. */
  lemma SustainedKeyCollision(k: Key, l: Key)
    requires |k.rule| <= |l.rule|
    ensures SustainedKey(k) == SustainedKey(l) && k != l
            <==> exists x: string :: l.rule == k.rule + ":" + x && k.agent == x + ":" + l.agent
  {
    var s, t, n := SustainedKey(k), SustainedKey(l), |k.rule|;
    if |l.rule| == n && s == t {
      SameLengthRules(k, l);
    }
    if s == t && k != l {
      var x := l.rule[n + 1..];
      assert t[..|l.rule|] == l.rule && s[..|l.rule|][..n] == k.rule && s[..|l.rule|][n] == ':';
      assert l.rule == k.rule + ":" + x;
      assert s[n + 1..] == k.agent;
      assert t[n + 1..] == x + ":" + l.agent;
    }
    if x: string :| l.rule == k.rule + ":" + x && k.agent == x + ":" + l.agent {
      assert (k.rule + ":" + x) + ":" + l.agent == k.rule + ":" + (x + ":" + l.agent);
    }
  }
}
