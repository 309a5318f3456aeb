/** What one key's evaluations say about its alert: the engine keeps one timestamp and one row, and
  * this module says what they stand for in terms of everything that ever happened to the key.
  * Clock readings are nanoseconds. */
module AlertHistory {
  import opened Options

  const SECOND := 1_000_000_000

  /** One evaluation of the key (read the clock under the lock, read it again for the duration
    * check, reach the table; `stored` is false when the table refused its write, or when the read
    * before it failed and nothing was resolved), or the removal
    * of the key's rows with their rule. */
  datatype Entry =
    | Evaluated(lock: int, check: int, forDuration: int, triggered: bool, stored: bool)
    | Erased

  type History = seq<Entry>

  predicate Met(forDuration: int, start: int, check: int) {
    forDuration <= 0 || check - start >= forDuration * SECOND
  }

  /** When the current streak of triggered evaluations began. */
  function StreakStart(h: History): Option<int> {
    if h == [] then None
    else
      var e := h[|h| - 1];
      if e.Erased? then StreakStart(h[..|h| - 1])
      else if !e.triggered then None
      else Some(StreakStart(h[..|h| - 1]).GetOr(e.lock))
  }

  /** Whether the key has an active alert, entry by entry. */
  predicate Live(h: History) {
    h != [] &&
    var e := h[|h| - 1];
    var before := Live(h[..|h| - 1]);
    if e.Erased? then false
    else if !e.triggered then before && !e.stored
    else before || (e.stored && Met(e.forDuration, StreakStart(h).GetOr(e.lock), e.check))
  }

  // ---------- The streak ----------

  /** Every evaluation from position `s` on was triggered. */
  ghost predicate Unbroken(h: History, s: nat) {
    forall i :: s <= i < |h| && h[i].Evaluated? ==> h[i].triggered
  }

  /** Position `s` is the first evaluation of the unbroken streak that lasts to the end. */
  ghost predicate BeginsStreak(h: History, s: nat) {
    && s < |h| && h[s].Evaluated? && Unbroken(h, s)
    && forall i :: 0 <= i < s && h[i].Evaluated? ==> !Unbroken(h, i)
  }

  lemma UnbrokenSnoc(h: History, s: nat)
    requires h != [] && s < |h|
    ensures Unbroken(h, s) <==> Unbroken(h[..|h| - 1], s) && (h[|h| - 1].Evaluated? ==> h[|h| - 1].triggered)
  {
    var init := h[..|h| - 1];
    assert forall i :: 0 <= i < |init| ==> init[i] == h[i];
  }

  lemma {:induction false} StreakHasBeginning(h: History) returns (s: nat)
    requires StreakStart(h).Some?
    ensures BeginsStreak(h, s) && StreakStart(h).value == h[s].lock
  {
    var n := |h| - 1;
    var init := h[..n];
    if StreakStart(init).Some? {
      s := StreakHasBeginning(init);
      forall i | 0 <= i < |h| ensures Unbroken(h, i) <==> Unbroken(init, i) {
        UnbrokenSnoc(h, i);
      }
      assert forall i :: 0 <= i < s ==> init[i] == h[i];
    } else {
      s := n;
      NoStreak(init);
      forall i | 0 <= i < n && h[i].Evaluated? ensures !Unbroken(h, i) {
        assert init[i] == h[i];
        UnbrokenSnoc(h, i);
      }
    }
  }

  lemma {:induction false} NoStreak(h: History)
    requires StreakStart(h) == None
    ensures forall i :: 0 <= i < |h| && h[i].Evaluated? ==> !Unbroken(h, i)
  {
    if h == [] {
    } else {
      var n := |h| - 1;
      var init := h[..n];
      if h[n].Erased? {
        NoStreak(init);
        forall i | 0 <= i < |h| && h[i].Evaluated? ensures !Unbroken(h, i) {
          assert init[i] == h[i];
          UnbrokenSnoc(h, i);
        }
      }
    }
  }

  lemma BeginningUnique(h: History, s: nat, s': nat)
    requires BeginsStreak(h, s) && BeginsStreak(h, s')
    ensures s == s'
  {}

  /** The stored timestamp is the lock time of the first evaluation of the streak, and there is
    * none exactly when no streak is running. */
  lemma StreakStartMeaning(h: History)
    ensures StreakStart(h).Some? <==> exists s: nat :: BeginsStreak(h, s)
    ensures forall s: nat :: BeginsStreak(h, s) ==> StreakStart(h) == Some(h[s].lock)
  {
    if StreakStart(h).Some? {
      var s := StreakHasBeginning(h);
      forall s': nat | BeginsStreak(h, s') ensures s' == s {
        BeginningUnique(h, s, s');
      }
    } else {
      NoStreak(h);
      forall s: nat ensures !BeginsStreak(h, s) {
        if s < |h| && h[s].Evaluated? {
          assert !Unbroken(h, s);
        }
      }
    }
  }

  // ---------- The alert ----------

  /** Evaluation `j` was triggered long enough into its streak and its insert was accepted, or an
    * alert was there already. */
  ghost predicate Qualifies(h: History, j: nat) {
    && j < |h| && h[j].Evaluated? && h[j].triggered && h[j].stored
    && Met(h[j].forDuration, StreakStart(h[..j + 1]).GetOr(h[j].lock), h[j].check)
  }

  /** The entry leaves the key without an alert. */
  predicate Ends(e: Entry) {
    e.Erased? || (!e.triggered && e.stored)
  }

  ghost predicate Standing(h: History, j: nat) {
    Qualifies(h, j) && forall i :: j < i < |h| ==> !Ends(h[i])
  }

  lemma StandingSnoc(h: History, j: nat)
    requires h != []
    ensures Standing(h, j) <==>
              || (Standing(h[..|h| - 1], j) && !Ends(h[|h| - 1]))
              || (j == |h| - 1 && Qualifies(h, j))
  {
    var n := |h| - 1;
    var init := h[..n];
    assert forall i :: 0 <= i < n ==> init[i] == h[i];
    if j < n {
      assert init[..j + 1] == h[..j + 1];
    }
  }

  /** The key has an active alert exactly when some evaluation qualified and nothing has ended the
    * alert since, whatever rule edits, refused writes and rule deletions lie in between. */
  lemma {:induction false} LiveMeaning(h: History)
    ensures Live(h) <==> exists j: nat :: Standing(h, j)
  {
    if h == [] {
    } else {
      var n := |h| - 1;
      var init := h[..n];
      LiveMeaning(init);
      assert h[..n + 1] == h;
      if j: nat :| Standing(h, j) {
        StandingSnoc(h, j);
      }
      if j: nat :| Standing(init, j) {
        StandingSnoc(h, j);
      }
      StandingSnoc(h, n);
      if Live(h) && !Live(init) {
        assert Qualifies(h, n);
      }
    }
  }

  // ---------- One rule, nothing refused ----------

  /** Evaluations of one key do not overlap: each begins after the one before has read the clock. */
  ghost predicate Timed(h: History) {
    && (forall i :: 0 <= i < |h| && h[i].Evaluated? ==> h[i].lock <= h[i].check)
    && (forall i, j :: 0 <= i < j < |h| && h[i].Evaluated? && h[j].Evaluated? ==> h[i].check <= h[j].lock)
  }

  ghost predicate Undisturbed(h: History, forDuration: int) {
    forall i :: 0 <= i < |h| ==> h[i].Evaluated? && h[i].stored && h[i].forDuration == forDuration
  }

  lemma PrefixFacts(h: History, forDuration: int, n: nat)
    requires n <= |h|
    ensures Timed(h) ==> Timed(h[..n])
    ensures Undisturbed(h, forDuration) ==> Undisturbed(h[..n], forDuration)
  {}

  lemma {:induction false} StreakStartPast(h: History)
    requires Timed(h) && h != [] && h[|h| - 1].Evaluated? && StreakStart(h).Some?
    ensures StreakStart(h).value <= h[|h| - 1].lock
  {
    var s := StreakHasBeginning(h);
  }

  /** With one rule, no refused write and no deletion, the alert is active exactly when the current
    * streak is at least `for_duration` old at its last evaluation. */
  lemma {:induction false} FixedRuleMeaning(h: History, forDuration: int)
    requires Timed(h) && Undisturbed(h, forDuration)
    ensures Live(h) <==>
              && StreakStart(h).Some?
              && h[|h| - 1].check - StreakStart(h).value >= (if forDuration > 0 then forDuration else 0) * SECOND
  {
    if h == [] {
    } else {
      var n := |h| - 1;
      PrefixFacts(h, forDuration, n);
      FixedRuleMeaning(h[..n], forDuration);
      if StreakStart(h).Some? {
        StreakStartPast(h);
      }
      if n > 0 {
        assert h[..n][n - 1] == h[n - 1] && h[n - 1].check <= h[n].lock;
      }
    }
  }

  // ---------- Firings ----------

  /** The alert appears at entry `j`. */
  ghost predicate FiresAt(h: History, j: nat) {
    j < |h| && Live(h[..j + 1]) && !Live(h[..j])
  }

  /** No alert fires early: `for_duration` before it the key was already triggered, and every
    * evaluation from then on was triggered. */
  lemma NoEarlyFiring(h: History, j: nat) returns (s: nat)
    requires FiresAt(h, j)
    ensures s <= j && h[s].Evaluated? && h[j].Evaluated? && h[j].triggered && h[j].stored
    ensures forall i :: s <= i <= j && h[i].Evaluated? ==> h[i].triggered
    ensures h[j].forDuration > 0 ==> h[j].check - h[s].lock >= h[j].forDuration * SECOND
  {
    var g := h[..j + 1];
    assert g[..j] == h[..j] && g[j] == h[j];
    s := StreakHasBeginning(g);
    forall i | s <= i <= j && h[i].Evaluated? ensures h[i].triggered {
      assert g[i] == h[i];
    }
  }

  lemma {:induction false} LiveUntilEnded(h: History, i: nat, j: nat)
    requires i <= j <= |h| && Live(h[..i]) && !Live(h[..j])
    ensures exists m :: i <= m < j && Ends(h[m])
    decreases j
  {
    if i == j {
    } else {
      var g := h[..j];
      assert g[..j - 1] == h[..j - 1] && g[j - 1] == h[j - 1];
      if Live(h[..j - 1]) {
        assert Ends(h[j - 1]);
      } else {
        LiveUntilEnded(h, i, j - 1);
      }
    }
  }

  /** Between two firings of a key its alert ended, by an evaluation that was not triggered or with
    * its rule; without a deletion in between the firings are at least `for_duration` apart. */
  lemma FiringsAreApart(h: History, i: nat, j: nat) returns (m: nat)
    requires FiresAt(h, i) && FiresAt(h, j) && i < j
    ensures i < m < j && Ends(h[m])
    ensures Timed(h) && (forall k :: i < k < j ==> h[k].Evaluated?) && h[j].forDuration > 0
            ==> h[j].check - h[i].check >= h[j].forDuration * SECOND
  {
    LiveUntilEnded(h, i + 1, j);
    m :| i < m < j && Ends(h[m]);
    var s := NoEarlyFiring(h, j);
    var _ := NoEarlyFiring(h, i);
    if m >= s && h[m].Evaluated? {
      assert h[m].triggered;
    }
  }
}
