/** Properties of whole runs of the user controller, whatever requests fail, get lost or
    crash the operator, and whatever time passes in between. */
module UserRuns {
  import opened UserProtocol

  // ---- Rotation ----

  /** Changes that lie `j - i` apart in the list are that many intervals apart in time. */
  lemma {:induction false} SpacedGap(s: Spec, changes: seq<int>, i: nat, j: nat)
    requires Paced(s) && Spaced(s, changes) && i <= j < |changes|
    ensures changes[j] - changes[i] >= (j - i) * Gap(s).value
  {
    if i < j {
      SpacedGap(s, changes, i, j - 1);
      assert changes[..j][j - 1] == changes[j - 1];
      assert MayFollow(s, LastOf(changes[..j]), changes[j]);
      assert (j - i) * Gap(s).value == (j - 1 - i) * Gap(s).value + Gap(s).value;
    }
  }

  lemma OnlyOne(s: Spec, changes: seq<int>)
    requires RotationOff(s) && Spaced(s, changes)
    ensures |changes| <= 1
  {
    assert |changes| > 1 ==> MayFollow(s, LastOf(changes[..1]), changes[1]);
  }

  lemma AtLeastOnce(n: int, gap: int)
    requires 1 <= n && 0 <= gap
    ensures n * gap >= gap
  {
  }

  lemma LastsApart(s: Spec, earlier: seq<int>, later: seq<int>)
    requires Spaced(s, later) && earlier <= later && earlier != []
    ensures var a, b := earlier[|earlier| - 1], later[|later| - 1];
            && (Paced(s) ==> a == b || b - a >= Gap(s).value)
            && (RotationOff(s) ==> a == b)
  {
    var m, n := |earlier| - 1, |later| - 1;
    assert later[m] == earlier[m];
    if RotationOff(s) { OnlyOne(s, later); }
    if Paced(s) && m < n {
      hide Spaced, MayFollow;
      SpacedGap(s, later, m, n);
      AtLeastOnce(n - m, Gap(s).value);
    }
  }

  /** Two values of LastPasswordChange persisted in one run are equal or lie at least the
      interval apart, even if writes are lost and the cache is behind; without rotation
      there is only one. (While nobody edits the spec.) */
  lemma RotationRate(log: seq<World>, i: nat, j: nat)
    requires Run(log) && i <= j < |log| && log[i].user.Some? && log[j].user.Some?
    requires log[i].user.value.status.lastChange.Some?
    ensures log[j].user.value.status.lastChange.Some?
    ensures !log[j].respecified ==>
            var s := log[i].spec;
            var a, b := log[i].user.value.status.lastChange.value, log[j].user.value.status.lastChange.value;
            && (Paced(s) ==> a == b || b - a >= s.password.value.policy.value.hours * 3600)
            && (RotationOff(s) ==> a == b)
  {
    hide MayFollow, Spaced, Run;
    RunInv(log, i);
    RunInv(log, j);
    RunLater(log, i, j);
    if !log[j].respecified { LastsApart(log[i].spec, log[i].changes, log[j].changes); }
  }

  lemma SmallMultiple(n: int, hours: int)
    requires 1 <= hours && n * hours < hours
    ensures n <= 0
  {
  }

  lemma QuotientBound(n: int, hours: int, window: int)
    requires 1 <= hours && n * hours <= window
    ensures n <= window / hours
  {
    var whole := window / hours;
    assert (n - whole) * hours == n * hours - whole * hours;
    SmallMultiple(n - whole, hours);
  }

  lemma IntervalsInWindow(n: nat, hours: int, window: nat)
    requires 1 <= hours && n * (hours * 3600) <= window * 3600
    ensures n <= window / hours
  {
    assert n * (hours * 3600) == (n * hours) * 3600;
    QuotientBound(n, hours, window);
  }

  /** A window of W hours holds at most W/I + 1 persisted changes. */
  lemma ChangesInWindow(log: seq<World>, k: nat, i: nat, j: nat, window: nat)
    requires Run(log) && k < |log| && !log[k].respecified && Paced(log[k].spec) && i <= j < |log[k].changes|
    requires log[k].changes[j] - log[k].changes[i] <= window * 3600
    ensures j - i + 1 <= window / log[k].spec.password.value.policy.value.hours + 1
  {
    RunInv(log, k);
    SpacedGap(log[k].spec, log[k].changes, i, j);
    IntervalsInWindow(j - i, log[k].spec.password.value.policy.value.hours, window);
  }

  /** And as many generated passwords, one not recorded yet aside, as long as no rotation
      went unrecorded. */
  lemma PasswordsInWindow(log: seq<World>, i: nat, j: nat, window: nat)
    requires Run(log) && i <= j < |log| && !log[j].respecified && Paced(log[j].spec)
    requires log[i].unrecorded == log[j].unrecorded
    requires |log[i].changes| < |log[j].changes| ==>
               LastOf(log[j].changes).value - log[j].changes[|log[i].changes|] <= window * 3600
    ensures log[j].generated - log[i].generated
            <= window / log[j].spec.password.value.policy.value.hours + 1 + if log[j].pending then 1 else 0
  {
    RunLater(log, i, j);
    var a, b := |log[i].changes|, |log[j].changes|;
    if a < b { ChangesInWindow(log, j, a, b - 1, window); }
    assert window / log[j].spec.password.value.policy.value.hours >= 0;
  }

  /** A password is generated only where that is asked for and a rotation is due by the
      status persisted at that moment, even if the pass started from an old cache; and no
      other Secret is written. */
  lemma GeneratedOnlyWhenDue(log: seq<World>, i: nat)
    requires Run(log) && i + 1 < |log| && log[i + 1].generated != log[i].generated
    ensures !log[i].respecified ==> MayGenerate(log[i])
    ensures forall name | name != GeneratedSecret(log[i].name) ::
              (name in log[i + 1].secrets <==> name in log[i].secrets)
              && (name in log[i].secrets ==> log[i + 1].secrets[name] == log[i].secrets[name])
  {
    var w, w' := log[i], log[i + 1];
    assert Next(w, w');
    hide Env, Do, Promised, MayGenerate, Run;
    if a :| w' == Env(w, a) {
      EnvGenerates(w, a);
    } else {
      var r :| Promised(w, r) && w' == Do(w, r);
      StoreGenerates(w, r);
    }
  }

  lemma EnvGenerates(w: World, a: EnvAction)
    ensures Env(w, a).generated == w.generated
  {
  }

  lemma StoreGenerates(w: World, r: Request)
    requires Promised(w, r) && Do(w, r).generated != w.generated
    ensures !w.respecified ==> MayGenerate(w)
    ensures forall name | name != GeneratedSecret(w.name) ::
              (name in Do(w, r).secrets <==> name in w.secrets)
              && (name in w.secrets ==> Do(w, r).secrets[name] == w.secrets[name])
  {
    hide ShouldRotate, PromisedStatus, GeneratedSecret;
  }

  // ---- What status writes keep ----

  /** No status write loses a LastPasswordChange or empties a list of instances. */
  lemma NothingForgotten(log: seq<World>, i: nat, j: nat)
    requires Run(log) && i <= j < |log| && log[i].user.Some? && log[j].user.Some?
    ensures KeepsFields(log[i].user.value.status, log[j].user.value.status)
  {
    RunLater(log, i, j);
  }

  /** If nobody takes Secrets or keys away, a recorded change means that the generated
      password is there to be read. */
  lemma RecordedMeansStored(log: seq<World>, i: nat)
    requires Run(log) && i < |log| && !log[i].meddled && log[i].user.Some?
    requires log[i].user.value.status.lastChange.Some?
    ensures HasGenerated(log[i])
    ensures log[i].spec.password.Some? && log[i].spec.password.value.secretRef.None? ==> Stored(log[i]).Some?
  {
    RunInv(log, i);
  }

  lemma StoredStays(log: seq<World>, i: nat, j: nat)
    requires Run(log) && i <= j < |log| && Stored(log[i]).Some? && !log[j].meddled
    ensures StoredBy(log[j], log[i].spec).Some?
  {
    RunLater(log, i, j);
  }
}
