/** When the capture queue raises its alarm, and what a run without one has captured. */
module CaptureAlarm {
  import opened CaptureQueue

  // ---------------------------------------------------------------- the alarm

  /** The bytes queued, in flight, and taken but not yet given back. */
  function Outstanding(s: State): nat { Sizes(s.queue) + Holds(s.callbacks) + Held(s.consumer) }

  /** A callback meets a limit: its bytes go beyond 128 MiB, or the queue holds 512 events. */
  ghost predicate Meets(s: State, t: Step)
    requires Enabled(s, t)
  {
    || (t.Reserve? && Outstanding(s) + s.callbacks[t.p].m.size > 128 * 1024 * 1024)
    || (t.Put? && |s.queue| == 512)
  }

  /** Some step of the run meets a limit. */
  ghost predicate Met(s: State, steps: seq<Step>)
    requires Runs(s, steps)
    decreases |steps|
  {
    steps != [] && (Meets(s, steps[0]) || Met(Next(s, steps[0]), steps[1..]))
  }

  lemma AlarmStays(s: State, t: Step)
    requires Enabled(s, t) && (t.Call? || t.Reserve? || t.Put? || t.GiveBack? || t.SetFatal?) && Alarmed(s)
    ensures Alarmed(Next(s, t))
  {
    var r := Next(s, t);
    if q :| 0 <= q < |s.callbacks| && Raising(s.callbacks[q]) {
      assert q != t.p ==> Raising(r.callbacks[q]);
      assert q == t.p ==> r.fatal || Raising(r.callbacks[q]);
    }
  }

  lemma MeetingAlarms(s: State, t: Step)
    requires Enabled(s, t) && Accounted(s) && Meets(s, t)
    ensures Alarmed(Next(s, t))
  {
    hide Holds, Sizes;
    if t.Put? {
      assert Raising(Next(s, t).callbacks[t.p]);
    }
  }

  lemma AlarmIsEarned(s: State, t: Step)
    requires Enabled(s, t) && Accounted(s) && (t.Call? || t.Reserve? || t.Put? || t.GiveBack? || t.SetFatal?)
    requires Alarmed(Next(s, t)) && !Alarmed(s)
    ensures Meets(s, t)
  {
    hide Holds, Sizes;
    var r := Next(s, t);
    assert forall q :: 0 <= q < |s.callbacks| ==> !Raising(s.callbacks[q]);
    if q :| 0 <= q < |r.callbacks| && Raising(r.callbacks[q]) {
      assert q == t.p;
    }
  }

  lemma StepAlarmIff(s: State, t: Step)
    requires Enabled(s, t) && Accounted(s)
    ensures Alarmed(Next(s, t)) <==> Alarmed(s) || Meets(s, t)
  {
    if t.Call? || t.Reserve? || t.Put? || t.GiveBack? || t.SetFatal? {
      if Alarmed(s) {
        AlarmStays(s, t);
      } else if Meets(s, t) {
        MeetingAlarms(s, t);
      } else if Alarmed(Next(s, t)) {
        AlarmIsEarned(s, t);
      }
    } else {
      assert Next(s, t).callbacks == s.callbacks && Next(s, t).fatal == s.fatal;
    }
  }

  /** The loop ends on an alarm only. */
  ghost predicate Going(s: State) {
    s.consumer.Stopped? ==> s.fatal
  }

  lemma {:induction false} RunAlarm(s: State, steps: seq<Step>)
    requires Accounted(s) && Going(s) && Runs(s, steps)
    ensures Alarmed(After(s, steps)) <==> Alarmed(s) || Met(s, steps)
    ensures Going(After(s, steps))
    decreases |steps|
  {
    if steps != [] {
      StepAccounted(s, steps[0]);
      StepAlarmIff(s, steps[0]);
      assert Going(Next(s, steps[0]));
      hide Accounted, Alarmed, Meets, Next, Going;
      RunAlarm(Next(s, steps[0]), steps[1..]);
    }
  }

  /** In every interleaving: the alarm is raised or about to be exactly when some callback has
      met a limit, and the loop has ended only if it is raised. */
  lemma AlarmIff(callbacks: nat, steps: seq<Step>)
    requires Runs(Initial(callbacks), steps)
    ensures Alarmed(After(Initial(callbacks), steps)) <==> Met(Initial(callbacks), steps)
    ensures Going(After(Initial(callbacks), steps))
  {
    AllIdle(Initial(callbacks).callbacks);
    RunAlarm(Initial(callbacks), steps);
  }

  // ---------------------------------------------------------------- what is captured

  /** The messages the callbacks were called with, images only until they are stopped. */
  function Offered(steps: seq<Step>, stopped: bool): multiset<Message>
    decreases |steps|
  {
    if steps == [] then multiset{}
    else
      var rest := Offered(steps[1..], stopped || steps[0].StopImages?);
      if steps[0].Call? && !(steps[0].m.isImage && stopped) then multiset{steps[0].m} + rest else rest
  }

  function Waits(c: Callback, m: Message): nat { if c == Entered(m) then 1 else 0 }

  /** How many callbacks have entered with this message and not yet reserved. */
  function Waiting(c: seq<Callback>, m: Message): nat {
    if c == [] then 0 else Waits(c[0], m) + Waiting(c[1..], m)
  }

  lemma {:induction false} WaitingUpdate(c: seq<Callback>, p: nat, x: Callback, m: Message)
    requires p < |c|
    ensures Waiting(c[p := x], m) + Waits(c[p], m) == Waiting(c, m) + Waits(x, m)
  {
    if p == 0 {
      assert c[0 := x][1..] == c[1..];
    } else {
      assert c[p := x][1..] == c[1..][p - 1 := x];
      WaitingUpdate(c[1..], p - 1, x, m);
    }
  }

  function Brought(s: State, t: Step, m: Message): nat {
    if t == Call(if t.Call? then t.p else 0, m) && (!m.isImage || s.accepting) then 1 else 0
  }

  lemma StepOffers(s: State, t: Step, m: Message)
    requires Enabled(s, t) && Accounted(s) && !Meets(s, t)
    ensures var r := Next(s, t);
            && r.admitted[m] + Waiting(r.callbacks, m) == s.admitted[m] + Waiting(s.callbacks, m) + Brought(s, t, m)
            && r.accepting == (s.accepting && !t.StopImages?)
  {
    hide Waiting, Holds, Sizes;
    if t.Call? || t.Reserve? || t.Put? || t.GiveBack? || t.SetFatal? {
      OneCallback(s, t);
      WaitingUpdate(s.callbacks, t.p, Next(s, t).callbacks[t.p], m);
    }
  }

  lemma {:induction false} RunOffers(s: State, steps: seq<Step>, m: Message)
    requires Accounted(s) && Runs(s, steps) && !Met(s, steps)
    ensures var r := After(s, steps);
            r.admitted[m] + Waiting(r.callbacks, m)
            == s.admitted[m] + Waiting(s.callbacks, m) + Offered(steps, !s.accepting)[m]
    decreases |steps|
  {
    if steps != [] {
      StepAccounted(s, steps[0]);
      StepOffers(s, steps[0], m);
      hide Accounted, Meets, Next, Waiting;
      RunOffers(Next(s, steps[0]), steps[1..], m);
    }
  }

  lemma {:induction false} NoneWaiting(c: seq<Callback>, m: Message)
    requires forall p :: 0 <= p < |c| ==> c[p].Idle?
    ensures Waiting(c, m) == 0
  {
    if c != [] {
      NoneWaiting(c[1..], m);
    }
  }

  /** A run in which no callback ever meets a limit: no alarm, the loop still goes, and at rest
      every message offered has been ingested, once. */
  lemma EverythingIsCaptured(callbacks: nat, steps: seq<Step>)
    requires Runs(Initial(callbacks), steps) && !Met(Initial(callbacks), steps)
    ensures !After(Initial(callbacks), steps).fatal && !After(Initial(callbacks), steps).consumer.Stopped?
    ensures var r := After(Initial(callbacks), steps);
            r.queue == [] && r.consumer.Ready? && (forall p :: 0 <= p < |r.callbacks| ==> r.callbacks[p].Idle?)
            ==> multiset(r.ingested) == Offered(steps, false)
  {
    AlarmIff(callbacks, steps);
    var s, r := Initial(callbacks), After(Initial(callbacks), steps);
    AllIdle(s.callbacks);
    if r.queue == [] && r.consumer.Ready? && forall p :: 0 <= p < |r.callbacks| ==> r.callbacks[p].Idle? {
      QuietMeansIngested(callbacks, steps);
      forall m
        ensures r.admitted[m] == Offered(steps, false)[m]
      {
        RunOffers(s, steps, m);
        NoneWaiting(s.callbacks, m);
        NoneWaiting(r.callbacks, m);
      }
    }
  }
}
