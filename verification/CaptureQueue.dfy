/** The bounded event queue inside record in rgbd_capture/capture.py: subscriber callbacks
    reserve bytes, then try to put; one consumer takes and gives the bytes back.  One step is
    one critical section, one queue operation, or one event flag. */
module CaptureQueue {

  const BYTE_LIMIT: int := 128 * 1024 * 1024
  const EVENT_LIMIT := 512

  datatype Message = Message(id: nat, size: nat, isImage: bool)

  /** Where a callback stands. */
  datatype Callback =
    | Idle
    | Entered(m: Message)
    | Reserved(m: Message)
    | Overflowed(m: Message)
    | Failing(m: Message)

  /** The consumer between two turns of the loop, holding an event, or out of the loop. */
  datatype Consumer = Ready | Holding(m: Message) | Stopped

  /** Histories: admitted are the messages whose bytes were reserved, put those that entered the
      queue, ingested those given to the engine, and lost those the queue refused. */
  datatype State = State(bytes: int, queue: seq<Message>, fatal: bool, accepting: bool, callbacks: seq<Callback>,
                         consumer: Consumer, admitted: multiset<Message>, put: seq<Message>,
                         ingested: seq<Message>, lost: multiset<Message>)

  datatype Step =
    | Call(p: nat, m: Message)
    | Reserve(p: nat)
    | Put(p: nat)
    | GiveBack(p: nat)
    | SetFatal(p: nat)
    | StopImages
    | Check
    | Get
    | Ingest

  function At(s: State, p: nat, c: Callback): State
    requires p < |s.callbacks|
  {
    s.(callbacks := s.callbacks[p := c])
  }

  predicate Enabled(s: State, t: Step) {
    match t
    case Call(p, _) => p < |s.callbacks| && s.callbacks[p].Idle?
    case Reserve(p) => p < |s.callbacks| && s.callbacks[p].Entered?
    case Put(p) => p < |s.callbacks| && s.callbacks[p].Reserved?
    case GiveBack(p) => p < |s.callbacks| && s.callbacks[p].Overflowed?
    case SetFatal(p) => p < |s.callbacks| && s.callbacks[p].Failing?
    case StopImages => true
    case Check => s.consumer.Ready?
    case Get => s.consumer.Ready? && s.queue != []
    case Ingest => s.consumer.Holding?
  }

  function Next(s: State, t: Step): (r: State)
    requires Enabled(s, t)
    ensures |r.callbacks| == |s.callbacks|
  {
    match t
    case Call(p, m) => if m.isImage && !s.accepting then s else At(s, p, Entered(m))
    case Reserve(p) =>
      var m := s.callbacks[p].m;
      if s.bytes + m.size > BYTE_LIMIT then At(s, p, Idle).(fatal := true)
      else At(s, p, Reserved(m)).(bytes := s.bytes + m.size, admitted := s.admitted + multiset{m})
    case Put(p) =>
      var m := s.callbacks[p].m;
      if |s.queue| < EVENT_LIMIT then At(s, p, Idle).(queue := s.queue + [m], put := s.put + [m])
      else At(s, p, Overflowed(m)).(lost := s.lost + multiset{m})
    case GiveBack(p) => At(s, p, Failing(s.callbacks[p].m)).(bytes := s.bytes - s.callbacks[p].m.size)
    case SetFatal(p) => At(s, p, Idle).(fatal := true)
    case StopImages => s.(accepting := false)
    case Check => if s.fatal then s.(consumer := Stopped) else s
    case Get => s.(queue := s.queue[1..], consumer := Holding(s.queue[0]))
    case Ingest => s.(bytes := s.bytes - s.consumer.m.size, consumer := Ready, ingested := s.ingested + [s.consumer.m])
  }

  predicate Runs(s: State, steps: seq<Step>)
    decreases |steps|
  {
    steps == [] || (Enabled(s, steps[0]) && Runs(Next(s, steps[0]), steps[1..]))
  }

  function After(s: State, steps: seq<Step>): (r: State)
    requires Runs(s, steps)
    decreases |steps|
  {
    if steps == [] then s else After(Next(s, steps[0]), steps[1..])
  }

  function Initial(callbacks: nat): State {
    State(0, [], false, true, seq(callbacks, _ => Idle), Ready, multiset{}, [], [], multiset{})
  }

  // ---------------------------------------------------------------- what the bytes stand for

  function Sizes(q: seq<Message>): nat {
    if q == [] then 0 else q[0].size + Sizes(q[1..])
  }

  /** The bytes a callback has reserved and neither put nor given back. */
  function Hold(c: Callback): nat { if c.Reserved? || c.Overflowed? then c.m.size else 0 }

  function Holds(c: seq<Callback>): nat {
    if c == [] then 0 else Hold(c[0]) + Holds(c[1..])
  }

  function Held(c: Consumer): nat { if c.Holding? then c.m.size else 0 }

  /** bytes is what is queued, in flight, and taken but not yet subtracted, within the limit. */
  ghost predicate Accounted(s: State) {
    && s.bytes == Sizes(s.queue) + Holds(s.callbacks) + Held(s.consumer)
    && 0 <= s.bytes <= BYTE_LIMIT && |s.queue| <= EVENT_LIMIT
  }

  lemma {:induction false} HoldsUpdate(c: seq<Callback>, p: nat, x: Callback)
    requires p < |c|
    ensures Holds(c[p := x]) + Hold(c[p]) == Holds(c) + Hold(x)
  {
    if p == 0 {
      assert c[0 := x][1..] == c[1..];
    } else {
      assert c[p := x][1..] == c[1..][p - 1 := x];
      HoldsUpdate(c[1..], p - 1, x);
    }
  }

  lemma {:induction false} SizesSnoc(q: seq<Message>, m: Message)
    ensures Sizes(q + [m]) == Sizes(q) + m.size
  {
    if q != [] {
      assert (q + [m])[1..] == q[1..] + [m];
      SizesSnoc(q[1..], m);
    } else {
      assert ([] + [m])[1..] == [];
    }
  }

  /** A callback's step changes that callback and no other. */
  lemma OneCallback(s: State, t: Step)
    requires Enabled(s, t) && (t.Call? || t.Reserve? || t.Put? || t.GiveBack? || t.SetFatal?)
    ensures var r := Next(s, t);
            r.callbacks == s.callbacks[t.p := r.callbacks[t.p]]
  {
  }

  lemma SizesPop(q: seq<Message>)
    requires q != []
    ensures Sizes(q) == q[0].size + Sizes(q[1..])
  {
  }

  lemma CallbackAccounted(s: State, t: Step)
    requires Enabled(s, t) && Accounted(s) && (t.Call? || t.Reserve? || t.Put? || t.GiveBack? || t.SetFatal?)
    ensures Accounted(Next(s, t))
  {
    hide Holds, Sizes;
    OneCallback(s, t);
    HoldsUpdate(s.callbacks, t.p, Next(s, t).callbacks[t.p]);
    if t.Put? {
      SizesSnoc(s.queue, s.callbacks[t.p].m);
    }
  }

  lemma StepAccounted(s: State, t: Step)
    requires Enabled(s, t) && Accounted(s)
    ensures Accounted(Next(s, t))
  {
    hide Holds, Sizes;
    if t.Call? || t.Reserve? || t.Put? || t.GiveBack? || t.SetFatal? {
      CallbackAccounted(s, t);
    } else if t.Get? {
      SizesPop(s.queue);
    }
  }

  // ---------------------------------------------------------------- what happened to each message

  /** A callback on its way to raise the alarm. */
  predicate Raising(c: Callback) { c.Overflowed? || c.Failing? }

  ghost predicate Alarmed(s: State) {
    s.fatal || exists p :: 0 <= p < |s.callbacks| && Raising(s.callbacks[p])
  }

  function Flying(c: Callback, m: Message): nat { if c == Reserved(m) then 1 else 0 }

  /** How many callbacks hold this message, reserved but not put. */
  function InFlight(c: seq<Callback>, m: Message): nat {
    if c == [] then 0 else Flying(c[0], m) + InFlight(c[1..], m)
  }

  function InHand(c: Consumer): seq<Message> { if c.Holding? then [c.m] else [] }

  /** Every admitted message is in flight, put, or lost, and a loss is announced; what was put is
      ingested in that order, but for the one in hand and those queued. */
  ghost predicate Traced(s: State) {
    && (forall m :: s.admitted[m] == InFlight(s.callbacks, m) + multiset(s.put)[m] + s.lost[m])
    && s.put == s.ingested + InHand(s.consumer) + s.queue
    && (s.lost != multiset{} ==> Alarmed(s))
  }

  lemma {:induction false} InFlightUpdate(c: seq<Callback>, p: nat, x: Callback, m: Message)
    requires p < |c|
    ensures InFlight(c[p := x], m) + Flying(c[p], m) == InFlight(c, m) + Flying(x, m)
  {
    if p == 0 {
      assert c[0 := x][1..] == c[1..];
    } else {
      assert c[p := x][1..] == c[1..][p - 1 := x];
      InFlightUpdate(c[1..], p - 1, x, m);
    }
  }

  lemma AlarmKept(s: State, p: nat, x: Callback)
    requires p < |s.callbacks| && Alarmed(s) && (Raising(s.callbacks[p]) ==> Raising(x))
    ensures Alarmed(At(s, p, x))
  {
    if q :| 0 <= q < |s.callbacks| && Raising(s.callbacks[q]) {
      assert Raising(At(s, p, x).callbacks[q]);
    }
  }

  lemma PutAlarm(s: State, p: nat)
    requires Enabled(s, Put(p)) && (s.lost != multiset{} ==> Alarmed(s))
    ensures var r := Next(s, Put(p));
            r.lost != multiset{} ==> Alarmed(r)
  {
    var r := Next(s, Put(p));
    if |s.queue| >= EVENT_LIMIT {
      assert Raising(r.callbacks[p]);
    } else if Alarmed(s) {
      AlarmKept(s, p, Idle);
      AlarmCarries(At(s, p, Idle), r);
    }
  }

  lemma AlarmCarries(s: State, r: State)
    requires Alarmed(s) && r.callbacks == s.callbacks && (s.fatal ==> r.fatal)
    ensures Alarmed(r)
  {
  }

  lemma StepAlarm(s: State, t: Step)
    requires Enabled(s, t) && (s.lost != multiset{} ==> Alarmed(s))
    ensures var r := Next(s, t);
            r.lost != multiset{} ==> Alarmed(r)
  {
    var r := Next(s, t);
    if t.Put? {
      PutAlarm(s, t.p);
    } else if s.lost != multiset{} && (t.Call? || t.Reserve? || t.GiveBack?) {
      AlarmKept(s, t.p, r.callbacks[t.p]);
      OneCallback(s, t);
      AlarmCarries(At(s, t.p, r.callbacks[t.p]), r);
    }
  }

  ghost predicate Whereabouts(s: State, m: Message) {
    s.admitted[m] == InFlight(s.callbacks, m) + multiset(s.put)[m] + s.lost[m]
  }

  lemma MoveWhereabouts(s: State, t: Step, m: Message)
    requires Enabled(s, t) && Whereabouts(s, m) && (t.Call? || t.Reserve? || t.GiveBack? || t.SetFatal?)
    ensures Whereabouts(Next(s, t), m)
  {
    MoveUnfolds(s, t, m);
    OneCallback(s, t);
    InFlightUpdate(s.callbacks, t.p, Next(s, t).callbacks[t.p], m);
    hide *;
  }

  /** What these steps do to the counts of a message. */
  lemma MoveUnfolds(s: State, t: Step, m: Message)
    requires Enabled(s, t) && (t.Call? || t.Reserve? || t.GiveBack? || t.SetFatal?)
    ensures var r := Next(s, t);
            && r.put == s.put && r.lost == s.lost && |r.callbacks| == |s.callbacks| && t.p < |s.callbacks|
            && r.admitted[m] + Flying(s.callbacks[t.p], m) == s.admitted[m] + Flying(r.callbacks[t.p], m)
  {
  }

  lemma Appended(q: seq<Message>, l: multiset<Message>, x: Message, m: Message)
    ensures multiset(q + [x])[m] == multiset(q)[m] + if x == m then 1 else 0
    ensures (l + multiset{x})[m] == l[m] + if x == m then 1 else 0
  {
  }

  lemma PutUnfolds(s: State, p: nat)
    requires Enabled(s, Put(p))
    ensures var r, x := Next(s, Put(p)), s.callbacks[p].m;
            && r.admitted == s.admitted
            && (if |s.queue| < EVENT_LIMIT
                then r.put == s.put + [x] && r.lost == s.lost && r.callbacks == s.callbacks[p := Idle]
                else r.put == s.put && r.lost == s.lost + multiset{x} && r.callbacks == s.callbacks[p := Overflowed(x)])
  {
  }

  lemma PutWhereabouts(s: State, p: nat, m: Message)
    requires Enabled(s, Put(p)) && Whereabouts(s, m)
    ensures Whereabouts(Next(s, Put(p)), m)
  {
    hide InFlight, Next;
    var x := s.callbacks[p].m;
    PutUnfolds(s, p);
    InFlightUpdate(s.callbacks, p, if |s.queue| < EVENT_LIMIT then Idle else Overflowed(x), m);
    Appended(s.put, s.lost, x, m);
  }

  lemma StepWhereabouts(s: State, t: Step, m: Message)
    requires Enabled(s, t) && Whereabouts(s, m)
    ensures Whereabouts(Next(s, t), m)
  {
    if t.Put? {
      PutWhereabouts(s, t.p, m);
    } else if t.Call? || t.Reserve? || t.GiveBack? || t.SetFatal? {
      MoveWhereabouts(s, t, m);
    }
  }

  /** What was put is what was ingested, is in hand, and is queued, in that order. */
  ghost predicate InTurn(s: State) {
    s.put == s.ingested + InHand(s.consumer) + s.queue
  }

  lemma StepInTurn(s: State, t: Step)
    requires Enabled(s, t) && InTurn(s)
    ensures InTurn(Next(s, t))
  {
    if t.Put? {
      PutInTurn(s, t.p);
    } else if t.Get? {
      GetInTurn(s);
    } else if t.Ingest? {
      IngestInTurn(s);
    }
  }

  lemma PutInTurn(s: State, p: nat)
    requires Enabled(s, Put(p)) && InTurn(s)
    ensures InTurn(Next(s, Put(p)))
  {
    var before, m := s.ingested + InHand(s.consumer), s.callbacks[p].m;
    assert before + s.queue + [m] == before + (s.queue + [m]);
  }

  lemma GetInTurn(s: State)
    requires Enabled(s, Get) && InTurn(s)
    ensures InTurn(Next(s, Get))
  {
    assert s.queue == [s.queue[0]] + s.queue[1..];
    assert s.ingested + [] == s.ingested;
    assert s.ingested + s.queue == s.ingested + [s.queue[0]] + s.queue[1..];
  }

  lemma IngestInTurn(s: State)
    requires Enabled(s, Ingest) && InTurn(s)
    ensures InTurn(Next(s, Ingest))
  {
    assert s.ingested + [s.consumer.m] + [] == s.ingested + [s.consumer.m];
  }

  lemma StepTraced(s: State, t: Step)
    requires Enabled(s, t) && Traced(s)
    ensures Traced(Next(s, t))
  {
    assert InTurn(s) && forall m :: Whereabouts(s, m);
    StepAlarm(s, t);
    StepInTurn(s, t);
    hide *;
    forall m
      ensures Whereabouts(Next(s, t), m)
    {
      StepWhereabouts(s, t, m);
    }
    TracedParts(Next(s, t));
  }

  lemma TracedParts(s: State)
    requires (forall m :: Whereabouts(s, m)) && InTurn(s) && (s.lost != multiset{} ==> Alarmed(s))
    ensures Traced(s)
  {
    forall m
      ensures s.admitted[m] == InFlight(s.callbacks, m) + multiset(s.put)[m] + s.lost[m]
    {
      assert Whereabouts(s, m);
    }
  }

  // ---------------------------------------------------------------- every run

  lemma {:induction false} RunKeeps(s: State, steps: seq<Step>)
    requires Accounted(s) && Traced(s) && Runs(s, steps)
    ensures Accounted(After(s, steps)) && Traced(After(s, steps))
    decreases |steps|
  {
    if steps != [] {
      hide Accounted, Traced, Next;
      StepAccounted(s, steps[0]);
      StepTraced(s, steps[0]);
      RunKeeps(Next(s, steps[0]), steps[1..]);
    }
  }

  lemma {:induction false} AllIdle(c: seq<Callback>)
    requires forall p :: 0 <= p < |c| ==> c[p].Idle?
    ensures Holds(c) == 0 && forall m :: InFlight(c, m) == 0
  {
    if c != [] {
      AllIdle(c[1..]);
    }
  }

  /** In every interleaving of the callbacks and the main loop: the byte count is exact and stays
      within the limit, events are ingested in the order they were put, and an admitted message
      that was not put or is not still to be put has raised the alarm or is about to. */
  lemma CaptureQueueIsExact(callbacks: nat, steps: seq<Step>)
    requires Runs(Initial(callbacks), steps)
    ensures Accounted(After(Initial(callbacks), steps)) && Traced(After(Initial(callbacks), steps))
  {
    AllIdle(Initial(callbacks).callbacks);
    RunKeeps(Initial(callbacks), steps);
  }

  /** At rest without alarm, everything admitted was ingested, in order, and no byte is reserved. */
  lemma QuietMeansIngested(callbacks: nat, steps: seq<Step>)
    requires Runs(Initial(callbacks), steps)
    requires var r := After(Initial(callbacks), steps);
             && !r.fatal && r.queue == [] && !r.consumer.Holding?
             && forall p :: 0 <= p < |r.callbacks| ==> r.callbacks[p].Idle?
    ensures var r := After(Initial(callbacks), steps);
            r.bytes == 0 && r.ingested == r.put && multiset(r.ingested) == r.admitted && r.lost == multiset{}
  {
    CaptureQueueIsExact(callbacks, steps);
    var r := After(Initial(callbacks), steps);
    hide After, Runs;
    AllIdle(r.callbacks);
    assert !Alarmed(r);
    hide InFlight, Holds, Sizes;
    forall m
      ensures multiset(r.ingested)[m] == r.admitted[m]
    {
      assert r.lost[m] == 0;
    }
  }
}
