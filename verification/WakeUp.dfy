/** The hand-off between the driver's storage threads (lds.cpp) and its publishing thread
    (lddc.cpp): producers push into one queue per lidar and signal a counting semaphore only
    when its count looks exhausted.  One step is one access to shared state. */
module WakeUp {

  /** Where a producer stands in PushLidarData or StorageImuData, and for which lidar. */
  datatype Producer =
    | Idle
    | Storing(lidar: nat)
    | Stored(lidar: nat)
    | Asking(lidar: nat)
    | Alerting

  /** Where the consumer stands in Distribute...Data: in Wait, or at a lidar of its scan. */
  datatype Consumer = Waiting | Scanning(lidar: nat)

  /** queues[i] is the number of packets of lidar i; sampling[i] its connect state. */
  datatype State = State(queues: seq<nat>, sampling: seq<bool>, count: nat, producers: seq<Producer>,
                         consumer: Consumer)
  {
    predicate Shaped() { |queues| == |sampling| }
  }

  datatype Step =
    | Begin(p: nat, lidar: nat, full: bool)
    | Store(p: nat)
    | Look(p: nat)
    | ReadCount(p: nat)
    | Signal(p: nat)
    | Wake
    | Take
    | Advance
    | Finish

  function At(s: State, p: nat, next: Producer): State
    requires p < |s.producers|
  {
    s.(producers := s.producers[p := next])
  }

  function Filled(s: State, lidar: nat): State
    requires lidar < |s.queues|
  {
    s.(queues := s.queues[lidar := s.queues[lidar] + 1])
  }

  /** A full queue still holds something; the IMU queue is never full. */
  predicate Enabled(s: State, t: Step)
    requires s.Shaped()
  {
    match t
    case Begin(p, lidar, full) => p < |s.producers| && s.producers[p].Idle? && lidar < |s.queues|
      && (full ==> s.queues[lidar] > 0)
    case Store(p) => p < |s.producers| && s.producers[p].Storing? && s.producers[p].lidar < |s.queues|
    case Look(p) => p < |s.producers| && s.producers[p].Stored? && s.producers[p].lidar < |s.queues|
    case ReadCount(p) => p < |s.producers| && s.producers[p].Asking?
    case Signal(p) => p < |s.producers| && s.producers[p].Alerting?
    case Wake => s.consumer.Waiting? && s.count > 0
    case Take => s.consumer.Scanning? && s.consumer.lidar < |s.queues| && s.sampling[s.consumer.lidar]
      && s.queues[s.consumer.lidar] > 0
    case Advance =>
      s.consumer.Scanning? && s.consumer.lidar < |s.queues|
        && (s.sampling[s.consumer.lidar] ==> s.queues[s.consumer.lidar] == 0)
    case Finish => s.consumer.Scanning? && s.consumer.lidar == |s.queues|
  }

  function Next(s: State, t: Step): (r: State)
    requires s.Shaped() && Enabled(s, t)
    ensures r.Shaped() && r.sampling == s.sampling && |r.producers| == |s.producers|
  {
    match t
    case Begin(p, lidar, full) => At(s, p, if full then Asking(lidar) else Storing(lidar))
    case Store(p) => var i := s.producers[p].lidar; Filled(At(s, p, Stored(i)), i)
    case Look(p) => var i := s.producers[p].lidar; At(s, p, if s.queues[i] == 0 then Idle else Asking(i))
    case ReadCount(p) => At(s, p, if s.count <= 0 then Alerting else Idle)
    case Signal(p) => At(s, p, Idle).(count := s.count + 1)
    case Wake => s.(count := s.count - 1, consumer := Scanning(0))
    case Take => var i := s.consumer.lidar; s.(queues := s.queues[i := s.queues[i] - 1])
    case Advance => s.(consumer := Scanning(s.consumer.lidar + 1))
    case Finish => s.(consumer := Waiting)
  }

  /** A run: each step enabled where it is taken. */
  predicate Runs(s: State, steps: seq<Step>)
    requires s.Shaped()
    decreases |steps|
  {
    steps == [] || (Enabled(s, steps[0]) && Runs(Next(s, steps[0]), steps[1..]))
  }

  function After(s: State, steps: seq<Step>): (r: State)
    requires s.Shaped() && Runs(s, steps)
    ensures r.Shaped() && r.sampling == s.sampling && |r.producers| == |s.producers|
    decreases |steps|
  {
    if steps == [] then s else After(Next(s, steps[0]), steps[1..])
  }

  // ---------------------------------------------------------------- the invariant

  /** A producer that will see to lidar i: it has stored there and not yet looked at the count,
      or it is about to signal. */
  predicate Minds(p: Producer, i: nat) {
    p == Stored(i) || p == Asking(i) || p == Alerting
  }

  ghost predicate Minded(s: State, i: nat) {
    exists p :: 0 <= p < |s.producers| && Minds(s.producers[p], i)
  }

  /** Lidar i will be drained: a signal is pending, the scan is yet to pass it, or a producer minds it. */
  ghost predicate Due(s: State, i: nat) {
    s.count > 0 || (s.consumer.Scanning? && s.consumer.lidar <= i) || Minded(s, i)
  }

  ghost predicate NoneForgotten(s: State)
    requires s.Shaped()
  {
    forall i :: 0 <= i < |s.queues| && s.sampling[i] && s.queues[i] > 0 ==> Due(s, i)
  }

  lemma MoveMinds(s: State, p: nat, next: Producer, i: nat)
    requires p < |s.producers| && Minded(s, i) && (Minds(s.producers[p], i) ==> Minds(next, i))
    ensures Minded(At(s, p, next), i)
  {
    var q :| 0 <= q < |s.producers| && Minds(s.producers[q], i);
    assert Minds(At(s, p, next).producers[q], i);
  }

  lemma BeginKeeps(s: State, t: Step)
    requires s.Shaped() && Enabled(s, t) && NoneForgotten(s) && t.Begin?
    ensures NoneForgotten(Next(s, t))
  {
    var r := Next(s, t);
    forall i | 0 <= i < |s.queues| && s.sampling[i] && s.queues[i] > 0
      ensures Due(r, i)
    {
      if Minded(s, i) {
        MoveMinds(s, t.p, r.producers[t.p], i);
      }
    }
  }

  lemma StoreKeeps(s: State, t: Step)
    requires s.Shaped() && Enabled(s, t) && NoneForgotten(s) && t.Store?
    ensures NoneForgotten(Next(s, t))
  {
    var r, k := Next(s, t), s.producers[t.p].lidar;
    forall i | 0 <= i < |r.queues| && r.sampling[i] && r.queues[i] > 0
      ensures Due(r, i)
    {
      if i == k {
        assert Minds(r.producers[t.p], i);
      } else if Minded(s, i) {
        MoveMinds(s, t.p, Stored(k), i);
      }
    }
  }

  lemma LookKeeps(s: State, t: Step)
    requires s.Shaped() && Enabled(s, t) && NoneForgotten(s) && t.Look?
    ensures NoneForgotten(Next(s, t))
  {
    var r := Next(s, t);
    forall i | 0 <= i < |r.queues| && r.sampling[i] && r.queues[i] > 0
      ensures Due(r, i)
    {
      if Minded(s, i) {
        MoveMinds(s, t.p, r.producers[t.p], i);
      }
    }
  }

  lemma ReadCountKeeps(s: State, t: Step)
    requires s.Shaped() && Enabled(s, t) && NoneForgotten(s) && t.ReadCount?
    ensures NoneForgotten(Next(s, t))
  {
    var r := Next(s, t);
    forall i | 0 <= i < |r.queues| && r.sampling[i] && r.queues[i] > 0
      ensures Due(r, i)
    {
      if s.count == 0 {
        assert Minds(r.producers[t.p], i);
      }
    }
  }

  lemma ConsumerKeeps(s: State, t: Step)
    requires s.Shaped() && Enabled(s, t) && NoneForgotten(s)
             && (t.Signal? || t.Wake? || t.Take? || t.Advance? || t.Finish?)
    ensures NoneForgotten(Next(s, t))
  {
    var r := Next(s, t);
    forall i | 0 <= i < |r.queues| && r.sampling[i] && r.queues[i] > 0
      ensures Due(r, i)
    {
      assert s.queues[i] > 0;
      if Minded(s, i) && !t.Signal? {
        var q :| 0 <= q < |s.producers| && Minds(s.producers[q], i);
        assert Minds(r.producers[q], i);
      }
    }
  }

  lemma StepKeeps(s: State, t: Step)
    requires s.Shaped() && Enabled(s, t) && NoneForgotten(s)
    ensures NoneForgotten(Next(s, t))
  {
    match t
    case Begin(_, _, _) => BeginKeeps(s, t);
    case Store(_) => StoreKeeps(s, t);
    case Look(_) => LookKeeps(s, t);
    case ReadCount(_) => ReadCountKeeps(s, t);
    case _ => ConsumerKeeps(s, t);
  }

  lemma {:induction false} RunKeeps(s: State, steps: seq<Step>)
    requires s.Shaped() && NoneForgotten(s) && Runs(s, steps)
    ensures NoneForgotten(After(s, steps))
    decreases |steps|
  {
    if steps != [] {
      StepKeeps(s, steps[0]);
      RunKeeps(Next(s, steps[0]), steps[1..]);
    }
  }

  predicate Resting(s: State) {
    && s.consumer.Waiting? && s.count == 0
    && forall p :: 0 <= p < |s.producers| ==> s.producers[p].Idle?
  }

  /** Nothing stored, nothing signalled, everyone at the beginning. */
  predicate Initial(s: State) {
    s.Shaped() && Resting(s) && forall i :: 0 <= i < |s.queues| ==> s.queues[i] == 0
  }

  /** No wake-up is lost: whatever the interleaving, when no producer is inside a push and the
      consumer cannot leave its wait, nothing is left in the queues it drains. */
  lemma NoLostWakeUp(s: State, steps: seq<Step>)
    requires Initial(s) && Runs(s, steps) && Resting(After(s, steps))
    ensures var r := After(s, steps);
            forall i :: 0 <= i < |r.queues| && r.sampling[i] ==> r.queues[i] == 0
  {
    RunKeeps(s, steps);
    var r := After(s, steps);
    forall i | 0 <= i < |r.queues| && r.sampling[i]
      ensures r.queues[i] == 0
    {
      assert !Minded(r, i);
    }
  }

  // ---------------------------------------------------------------- lidars that are not sampling

  lemma Prepend(s: State, t: Step, rest: seq<Step>)
    requires s.Shaped() && Enabled(s, t) && Runs(Next(s, t), rest)
    ensures Runs(s, [t] + rest) && After(s, [t] + rest) == After(Next(s, t), rest)
  {
    assert ([t] + rest)[1..] == rest;
  }

  /** The consumer's scan passes every queue that is empty or not sampling. */
  lemma {:induction false} ScanPasses(s: State) returns (steps: seq<Step>)
    requires s.Shaped() && s.consumer.Scanning? && s.consumer.lidar <= |s.queues|
    requires forall i :: 0 <= i < |s.queues| && s.sampling[i] ==> s.queues[i] == 0
    ensures Runs(s, steps) && After(s, steps) == s.(consumer := Waiting)
    decreases |s.queues| - s.consumer.lidar
  {
    if s.consumer.lidar == |s.queues| {
      Prepend(s, Finish, []);
      return [Finish];
    }
    var rest := ScanPasses(Next(s, Advance));
    Prepend(s, Advance, rest);
    steps := [Advance] + rest;
  }

  /** One push to an idle lidar that is not sampling is announced, and left where it is. */
  lemma LeftBehind(s: State, i: nat) returns (steps: seq<Step>)
    requires Initial(s) && s.producers != [] && i < |s.queues| && !s.sampling[i]
    ensures Runs(s, steps) && Resting(After(s, steps)) && After(s, steps).queues[i] == 1
  {
    hide Runs, After;
    var s1 := Next(s, Begin(0, i, false));
    var s2 := Next(s1, Store(0));
    var s3 := Next(s2, Look(0));
    var s4 := Next(s3, ReadCount(0));
    var s5 := Next(s4, Signal(0));
    var s6 := Next(s5, Wake);
    assert s6.producers == s.producers && s6.queues == s.queues[i := 1];
    hide Enabled, Next;
    steps := ScanPasses(s6);
    var end := After(s6, steps);
    steps := Before(s5, Wake, steps);
    steps := Before(s4, Signal(0), steps);
    steps := Before(s3, ReadCount(0), steps);
    steps := Before(s2, Look(0), steps);
    steps := Before(s1, Store(0), steps);
    steps := Before(s, Begin(0, i, false), steps);
    assert After(s, steps) == end;
  }

  lemma Before(s: State, t: Step, rest: seq<Step>) returns (steps: seq<Step>)
    requires s.Shaped() && Enabled(s, t) && Runs(Next(s, t), rest)
    ensures Runs(s, steps) && After(s, steps) == After(Next(s, t), rest)
  {
    steps := [t] + rest;
    Prepend(s, t, rest);
  }

  ghost predicate AlwaysDrained(s: State, i: nat)
    requires s.Shaped() && i < |s.queues|
  {
    forall steps: seq<Step> :: Runs(s, steps) && Resting(After(s, steps)) ==> After(s, steps).queues[i] == 0
  }

  /** A lidar's queue is empty at every rest of every run exactly when the lidar is sampling. */
  lemma DrainedIffSampling(s: State, i: nat)
    requires Initial(s) && s.producers != [] && i < |s.queues|
    ensures AlwaysDrained(s, i) <==> s.sampling[i]
  {
    if s.sampling[i] {
      forall steps: seq<Step> | Runs(s, steps) && Resting(After(s, steps))
        ensures After(s, steps).queues[i] == 0
      {
        NoLostWakeUp(s, steps);
      }
    } else {
      var steps := LeftBehind(s, i);
      assert After(s, steps).queues[i] == 1;
    }
  }

  // ---------------------------------------------------------------- signals and packets

  function Alerts(c: seq<Producer>): nat {
    if c == [] then 0 else Alerts(c[1..]) + if c[0].Alerting? then 1 else 0
  }

  lemma {:induction false} AlertsUpdate(c: seq<Producer>, p: nat, x: Producer)
    requires p < |c|
    ensures Alerts(c[p := x]) + (if c[p].Alerting? then 1 else 0) == Alerts(c) + if x.Alerting? then 1 else 0
    ensures Alerts(c) <= |c|
  {
    if p == 0 {
      assert c[0 := x][1..] == c[1..];
      AlertsBound(c[1..]);
    } else {
      assert c[p := x][1..] == c[1..][p - 1 := x];
      AlertsUpdate(c[1..], p - 1, x);
    }
  }

  lemma {:induction false} AlertsBound(c: seq<Producer>)
    ensures Alerts(c) <= |c|
  {
    if c != [] {
      AlertsBound(c[1..]);
    }
  }

  function Total(q: seq<nat>): nat {
    if q == [] then 0 else q[0] + Total(q[1..])
  }

  lemma {:induction false} TotalUpdate(q: seq<nat>, i: nat, x: nat)
    requires i < |q|
    ensures Total(q[i := x]) + q[i] == Total(q) + x
  {
    if i == 0 {
      assert q[0 := x][1..] == q[1..];
    } else {
      assert q[i := x][1..] == q[1..][i - 1 := x];
      TotalUpdate(q[1..], i - 1, x);
    }
  }

  /** How often the run stores a packet, and takes one. */
  function Stores(steps: seq<Step>): nat {
    if steps == [] then 0 else Stores(steps[1..]) + if steps[0].Store? then 1 else 0
  }

  function Takes(steps: seq<Step>): nat {
    if steps == [] then 0 else Takes(steps[1..]) + if steps[0].Take? then 1 else 0
  }

  /** Signals pending and about to be given. */
  ghost predicate Bounded(s: State) {
    s.count + Alerts(s.producers) <= |s.producers|
  }

  lemma StepBounded(s: State, t: Step)
    requires s.Shaped() && Enabled(s, t) && Bounded(s)
    ensures Bounded(Next(s, t))
    ensures Total(Next(s, t).queues) + (if t.Take? then 1 else 0) == Total(s.queues) + if t.Store? then 1 else 0
  {
    hide Alerts, Total;
    var r := Next(s, t);
    if t.Begin? || t.Store? || t.Look? || t.ReadCount? || t.Signal? {
      AlertsUpdate(s.producers, t.p, r.producers[t.p]);
      AlertsBound(r.producers);
      assert r.producers == s.producers[t.p := r.producers[t.p]];
    }
    if t.Store? {
      TotalUpdate(s.queues, s.producers[t.p].lidar, s.queues[s.producers[t.p].lidar] + 1);
    } else if t.Take? {
      TotalUpdate(s.queues, s.consumer.lidar, s.queues[s.consumer.lidar] - 1);
    }
  }

  lemma {:induction false} RunBounded(s: State, steps: seq<Step>)
    requires s.Shaped() && Bounded(s) && Runs(s, steps)
    ensures Bounded(After(s, steps))
    ensures Total(After(s, steps).queues) + Takes(steps) == Total(s.queues) + Stores(steps)
    decreases |steps|
  {
    if steps != [] {
      StepBounded(s, steps[0]);
      hide Next, Bounded, Total;
      RunBounded(Next(s, steps[0]), steps[1..]);
    }
  }

  /** Whether producer p, in its present push, has found a packet in the queue it pushed to, or
      found it full; saw is what it had found before. */
  function Saw(s: State, steps: seq<Step>, p: nat, saw: bool): bool
    requires s.Shaped() && Runs(s, steps) && p < |s.producers|
    decreases |steps|
  {
    if steps == [] then saw
    else
      var now := match steps[0]
                 case Begin(q, lidar, full) => if q == p then full && s.queues[lidar] > 0 else saw
                 case Look(q) => if q == p then s.queues[s.producers[q].lidar] > 0 else saw
                 case _ => saw;
      Saw(Next(s, steps[0]), steps[1..], p, now)
  }

  /** Whether producer p, when it last read the count, found it exhausted. */
  function ReadNone(s: State, steps: seq<Step>, p: nat, none: bool): bool
    requires s.Shaped() && Runs(s, steps) && p < |s.producers|
    decreases |steps|
  {
    if steps == [] then none
    else ReadNone(Next(s, steps[0]), steps[1..], p, if steps[0] == ReadCount(p) then s.count == 0 else none)
  }

  lemma {:induction false} AskersSaw(s: State, steps: seq<Step>, p: nat, saw: bool, none: bool)
    requires s.Shaped() && Runs(s, steps) && p < |s.producers|
    requires s.producers[p].Asking? || s.producers[p].Alerting? ==> saw
    requires s.producers[p].Alerting? ==> none
    ensures var r := After(s, steps).producers[p];
            && (r.Asking? || r.Alerting? ==> Saw(s, steps, p, saw))
            && (r.Alerting? ==> ReadNone(s, steps, p, none))
    decreases |steps|
  {
    if steps != [] {
      var t, r := steps[0], Next(s, steps[0]);
      var now := match t
                 case Begin(q, lidar, full) => if q == p then full && s.queues[lidar] > 0 else saw
                 case Look(q) => if q == p then s.queues[s.producers[q].lidar] > 0 else saw
                 case _ => saw;
      AskersSaw(r, steps[1..], p, now, if t == ReadCount(p) then s.count == 0 else none);
    }
  }

  /** In every interleaving a signal is given only by a producer that found a packet waiting and
      then the count exhausted. */
  lemma SignalsAreCalledFor(s: State, steps: seq<Step>, p: nat)
    requires Initial(s) && Runs(s, steps) && Enabled(After(s, steps), Signal(p))
    ensures Saw(s, steps, p, false) && ReadNone(s, steps, p, false)
  {
    AskersSaw(s, steps, p, false, false);
  }

  /** In every interleaving the semaphore counts at most one signal a producer, and the packets
      stored are those taken and those queued. */
  lemma SignalsAreBounded(s: State, steps: seq<Step>)
    requires Initial(s) && Runs(s, steps)
    ensures After(s, steps).count <= |s.producers|
    ensures Total(After(s, steps).queues) + Takes(steps) == Stores(steps)
  {
    AlertsBound(s.producers);
    NoPackets(s.queues);
    RunBounded(s, steps);
    hide Alerts, Total, Runs;
  }

  lemma {:induction false} NoPackets(q: seq<nat>)
    requires forall i :: 0 <= i < |q| ==> q[i] == 0
    ensures Total(q) == 0
  {
    if q != [] {
      NoPackets(q[1..]);
    }
  }
}
