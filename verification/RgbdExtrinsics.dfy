/** The extrinsic of a session: one that never changes is accepted, one that creeps is not. */
module RgbdExtrinsics {
  import opened Basics
  import opened RgbdTypes
  import opened RgbdGroup
  import opened RgbdEngine
  import opened RgbdRuns
  import opened RgbdValidator
  import opened RgbdRecording
  import opened RgbdAgreement
  import opened RgbdSession
  import opened RgbdVerdict
  import RgbdPairing
  import RateLimiter
  import OdometryWindow

  // ---------------------------------------------------------------- an extrinsic that never changes

  /** After no call do the static transforms give another extrinsic than m. */
  ghost predicate Constant(g: Geometry, cfg: Config, calls: seq<Call>, m: Matrix)
    requires cfg.Valid()
  {
    forall n :: 0 <= n <= |calls| && After(g, cfg, calls[..n]).Some? ==>
      Gives(g, cfg, After(g, cfg, calls[..n]).value, m)
  }

  ghost predicate Gives(g: Geometry, cfg: Config, s: EngineState, m: Matrix) {
    Extrinsic(g, cfg, s).Some? ==> Extrinsic(g, cfg, s) == Some(m)
  }

  ghost predicate AllHave(g: Geometry, s: EngineState, m: Matrix) {
    forall k :: 0 <= k < |s.frames| ==> g.matrix(s.frames[k].ext.pose) == Some(m)
  }

  /** A frame made now has the extrinsic the static transforms give now. */
  lemma MadeHas(g: Geometry, cfg: Config, s: EngineState)
    requires cfg.Valid() && s.images.pending != []
    ensures var o := FrontOutcome(g, cfg, s);
            o.Made? ==> Extrinsic(g, cfg, s).Some? && g.matrix(o.frame.ext.pose) == Extrinsic(g, cfg, s)
  {
    hide Interpolated, OdometryWindow.Bracket, BestInfo, AllClose;
  }

  lemma {:induction false} DrainHas(g: Geometry, cfg: Config, s: EngineState, wall: real, final: bool, m: Matrix)
    requires cfg.Valid() && Gives(g, cfg, s, m) && AllHave(g, s, m)
    ensures var r := Drain(g, cfg, s, wall, final);
            r.Some? ==> r.value.statics.buffer == s.statics.buffer && AllHave(g, r.value, m)
    decreases |s.images.pending|
  {
    hide FrontOutcome, Written;
    if s.images.pending != [] {
      match FrontOutcome(g, cfg, s)
      case Late(reason) => DrainHas(g, cfg, Dropped(s, reason), wall, final, m);
      case Bad => DrainHas(g, cfg, Dropped(s, InvalidRgbd), wall, final, m);
      case Changed =>
      case Made(f, x) =>
        MadeHas(g, cfg, s);
        DrainHas(g, cfg, Emitted(s, f, x, wall), wall, final, m);
    }
  }

  lemma TakeKeepsFrames(g: Geometry, cfg: Config, s: EngineState, m: Message, arrival: int, wall: real)
    requires cfg.Valid() && Take(g, cfg, s, m, arrival, wall).Some?
    ensures Take(g, cfg, s, m, arrival, wall).value.0.frames == s.frames
  {
    if m.RgbMsg? || m.DepthMsg? {
      TakeImageKeeps(g, cfg, s, m, arrival, wall);
    }
    hide Stamped, PairAll, Learned, Kept, OdometryWindow.Drops;
  }

  lemma {:induction false} RunHas(g: Geometry, cfg: Config, calls: seq<Call>, m: Matrix)
    requires cfg.Valid() && Constant(g, cfg, calls, m) && After(g, cfg, calls).Some?
    ensures AllHave(g, After(g, cfg, calls).value, m)
  {
    if calls == [] {
      return;
    }
    var before, c := calls[..|calls| - 1], calls[|calls| - 1];
    ConstantBefore(g, cfg, calls, m);
    RunHas(g, cfg, before, m);
    assert Gives(g, cfg, After(g, cfg, calls).value, m) by {
      assert calls[..|calls|] == calls;
    }
    var s := After(g, cfg, before).value;
    hide Take, Drain, AllHave, Gives, Constant;
    match c
    case Message(x, arrival, wall) =>
      TakeKeepsFrames(g, cfg, s, x, arrival, wall);
      var t := Take(g, cfg, s, x, arrival, wall).value;
      SameHave(g, s, t.0, m);
      if t.1 {
        DrainKeepsBuffer(g, cfg, t.0, wall, false);
        SameGives(g, cfg, After(g, cfg, calls).value, t.0, m);
        DrainHas(g, cfg, t.0, wall, false, m);
      }
    case Poll(wall) =>
      DrainKeepsBuffer(g, cfg, s, wall, false);
      SameGives(g, cfg, After(g, cfg, calls).value, s, m);
      DrainHas(g, cfg, s, wall, false, m);
  }

  lemma ConstantBefore(g: Geometry, cfg: Config, calls: seq<Call>, m: Matrix)
    requires cfg.Valid() && calls != [] && Constant(g, cfg, calls, m)
    ensures Constant(g, cfg, calls[..|calls| - 1], m)
  {
    hide After, Gives;
    var before := calls[..|calls| - 1];
    forall n | 0 <= n <= |before| && After(g, cfg, before[..n]).Some?
      ensures Gives(g, cfg, After(g, cfg, before[..n]).value, m)
    {
      assert before[..n] == calls[..n];
    }
  }

  lemma SameHave(g: Geometry, s: EngineState, t: EngineState, m: Matrix)
    requires AllHave(g, s, m) && t.frames == s.frames
    ensures AllHave(g, t, m)
  {
  }

  lemma SameGives(g: Geometry, cfg: Config, s: EngineState, t: EngineState, m: Matrix)
    requires Gives(g, cfg, s, m) && t.statics.buffer == s.statics.buffer
    ensures Gives(g, cfg, t, m)
  {
  }

  lemma {:induction false} DrainKeepsBuffer(g: Geometry, cfg: Config, s: EngineState, wall: real, final: bool)
    requires cfg.Valid()
    ensures var r := Drain(g, cfg, s, wall, final);
            r.Some? ==> r.value.statics.buffer == s.statics.buffer
    decreases |s.images.pending|
  {
    hide FrontOutcome, Written;
    if s.images.pending != [] {
      match FrontOutcome(g, cfg, s)
      case Late(reason) => DrainKeepsBuffer(g, cfg, Dropped(s, reason), wall, final);
      case Bad => DrainKeepsBuffer(g, cfg, Dropped(s, InvalidRgbd), wall, final);
      case Changed =>
      case Made(f, m) => DrainKeepsBuffer(g, cfg, Emitted(s, f, m, wall), wall, final);
    }
  }

  /** A session in which the extrinsic never changes: the frames agree with it, and the bag is
      accepted exactly when it is otherwise equipped. */
  lemma ConstantIsAccepted(g: Geometry, cfg: Config, calls: seq<Call>, m: Matrix, wall: real, k: Closing, t: int)
    requires g.Lawful() && cfg.Valid() && InOrder(calls) && ArrivalsUpTo(calls, t) && k.SensorsOnly()
    requires After(g, cfg, calls).Some? && Drain(g, cfg, After(g, cfg, calls).value, wall, true).Some?
    requires Constant(g, cfg, calls, m)
    ensures var s := Drain(g, cfg, After(g, cfg, calls).value, wall, true).value;
            && AllAgree(g, m, Groups(s.frames))
            && CheckBag(g, Bag(cfg, s, k))
               == if Equipped(g, cfg, s) && RawsComplete(cfg, s, k) then Some(|s.frames|) else None
  {
    var r := After(g, cfg, calls).value;
    assert Gives(g, cfg, r, m) by {
      assert calls[..|calls|] == calls;
    }
    RunHas(g, cfg, calls, m);
    hide Geometry.Lawful, After, Drain, InOrder, ArrivalsUpTo, Bag, CheckBag, Equipped, RawsComplete;
    hide Extrinsic, AllAgree, AllHave, Closing.SensorsOnly;
    ProducerAndValidatorAgree(g, cfg, calls, wall, k, t);
    DrainHas(g, cfg, r, wall, true, m);
    var s := Drain(g, cfg, r, wall, true).value;
    SameGives(g, cfg, r, s, m);
    HaveAgree(g, s, m);
    EquippedGives(g, cfg, s);
  }

  lemma EquippedGives(g: Geometry, cfg: Config, s: EngineState)
    ensures Equipped(g, cfg, s) ==> Extrinsic(g, cfg, s).Some?
  {
  }

  lemma HaveAgree(g: Geometry, s: EngineState, m: Matrix)
    requires AllHave(g, s, m)
    ensures AllAgree(g, m, Groups(s.frames))
  {
  }
}
