/**
 * The image loop of Eyetracking/FixationDetection.py, reduced to its gaze logic.
 *
 * Each pass decodes the gaze coordinate of one camera-capture message, flips its y
 * coordinate, appends it to the 10-slot gaze history and, once the history is full,
 * runs the fixation and saccade tests. A detection pushes the gaze object's scene
 * position to its outlet; every pass pushes the gaze coordinate itself. Pushes are
 * recorded, in order, in an event list.
 */
module FixationDetection {
  import opened Common
  import opened GazePayload
  import opened GazeWindow

  /** The streams the loop pushes samples to. */
  datatype Outlet = FixationOutlet | SaccadeOutlet | GazeOutlet

  /** One `push_sample` call. */
  datatype Push = Push(outlet: Outlet, sample: seq<real>)

  /**
   * The inputs of one pass: the gaze part (`received_bytes[3]`) of the message and
   * the position that the scene lookup of the "Gaze" object returns.
   */
  datatype Frame = Frame(gazeInfo: seq<Byte>, gazeLookup: Vec3)

  /** The contents of the per-pass sample arrays at the end of a pass. */
  datatype FrameSamples = FrameSamples(fixation: seq<real>, saccade: seq<real>, gaze: seq<real>)

  /** `np.zeros(3) - 1`: a sample array no detection has written. */
  const Unset: seq<real> := [-1.0, -1.0, -1.0]

  function PositionSample(v: Vec3): seq<real> {
    [v.x, v.y, v.z]
  }

  /** The sample pushed to the gaze outlet for a point: `(x, y, 0)`. */
  function GazeSample(p: Point): seq<real> {
    [p.0 as real, p.1 as real, 0.0]
  }

  /** The decoded and flipped gaze point of a four-byte payload. */
  function GazePoint(gazeInfo: seq<Byte>, height: int): (p: Point)
    requires |gazeInfo| == 4
    ensures p.0 == DecodeGaze(gazeInfo).value.0
    ensures p.1 + DecodeGaze(gazeInfo).value.1 == height
  {
    FlipY(DecodeGaze(gazeInfo).value, height)
  }

  /** The first `n` messages all carry a four-byte gaze payload. */
  ghost predicate DecodableUpTo(frames: seq<Frame>, n: nat) {
    n <= |frames| && forall i :: 0 <= i < n ==> |frames[i].gazeInfo| == 4
  }

  /** The gaze points of the first `n` passes. */
  function Points(frames: seq<Frame>, n: nat, height: int): (ps: seq<Point>)
    requires DecodableUpTo(frames, n)
    ensures |ps| == n
  {
    if n == 0 then []
    else Points(frames, n - 1, height) + [GazePoint(frames[n - 1].gazeInfo, height)]
  }

  /** The samples pushed to the gaze outlet, in order. */
  function GazeTrail(pushes: seq<Push>): (trail: seq<seq<real>>)
    ensures |trail| <= |pushes|
  {
    if pushes == [] then []
    else
      var last := pushes[|pushes| - 1];
      GazeTrail(pushes[..|pushes| - 1]) + if last.outlet == GazeOutlet then [last.sample] else []
  }

  lemma {:induction false} GazeTrailAppend(a: seq<Push>, b: seq<Push>)
    ensures GazeTrail(a + b) == GazeTrail(a) + GazeTrail(b)
    decreases |b|
  {
    if b != [] {
      var b' := b[..|b| - 1];
      assert (a + b)[..|a + b| - 1] == a + b';
      GazeTrailAppend(a, b');
    } else {
      assert a + b == a;
    }
  }

  function GazeSamples(ps: seq<Point>): (samples: seq<seq<real>>)
    ensures |samples| == |ps|
    ensures forall i :: 0 <= i < |ps| ==> samples[i] == GazeSample(ps[i])
  {
    if ps == [] then [] else GazeSamples(ps[..|ps| - 1]) + [GazeSample(ps[|ps| - 1])]
  }

  /**
   * What one completed pass pushes, starting from history `h`: the fixation sample
   * if that test fires on the full window, the saccade sample if that one does,
   * then the gaze coordinate.
   */
  function PassPushes(h: seq<Point>, frame: Frame, height: int): (pushes: seq<Push>)
    requires |h| <= HistorySize && |frame.gazeInfo| == 4
    ensures |pushes| == if |h| + 1 >= HistorySize then 2 else 1
    ensures pushes[|pushes| - 1] == Push(GazeOutlet, GazeSample(GazePoint(frame.gazeInfo, height)))
    ensures forall k :: 0 <= k < |pushes| - 1 ==> pushes[k].outlet != GazeOutlet
  {
    var w := Append(h, GazePoint(frame.gazeInfo, height));
    var full := |w| == HistorySize;
    FixationXorSaccade(w);
    (if full && Fixation(w) then [Push(FixationOutlet, PositionSample(frame.gazeLookup))] else [])
      + (if full && Saccade(w) then [Push(SaccadeOutlet, PositionSample(frame.gazeLookup))] else [])
      + [Push(GazeOutlet, GazeSample(GazePoint(frame.gazeInfo, height)))]
  }

  lemma PassPushesUnfold(h: seq<Point>, frame: Frame, height: int)
    requires |h| <= HistorySize && |frame.gazeInfo| == 4
    ensures
      var p := GazePoint(frame.gazeInfo, height);
      var w := Append(h, p);
      PassPushes(h, frame, height) ==
        ((if |w| == HistorySize && Fixation(w) then [Push(FixationOutlet, PositionSample(frame.gazeLookup))] else [])
          + (if |w| == HistorySize && Saccade(w) then [Push(SaccadeOutlet, PositionSample(frame.gazeLookup))] else []))
        + [Push(GazeOutlet, GazeSample(p))]
  {
  }

  /** Everything the first `n` passes push, starting from history `h0`. */
  function RunPushes(h0: seq<Point>, frames: seq<Frame>, n: nat, height: int): (pushes: seq<Push>)
    requires DecodableUpTo(frames, n)
    ensures n <= |pushes| <= 2 * n
  {
    if n == 0 then []
    else
      RunPushes(h0, frames, n - 1, height)
        + PassPushes(Recent(h0 + Points(frames, n - 1, height), HistorySize), frames[n - 1], height)
  }

  /** A pass pushes exactly one sample to the gaze outlet: its gaze coordinate. */
  lemma PassPushesGazeTrail(h: seq<Point>, frame: Frame, height: int)
    requires |h| <= HistorySize && |frame.gazeInfo| == 4
    ensures GazeTrail(PassPushes(h, frame, height)) == [GazeSample(GazePoint(frame.gazeInfo, height))]
  {
    var pass := PassPushes(h, frame, height);
    var events := pass[..|pass| - 1];
    assert [] + events + [pass[|pass| - 1]] == pass;
    GazeTrailOfPass([], events, GazeSample(GazePoint(frame.gazeInfo, height)));
  }

  /** The gaze outlet's share of what the passes push is one sample per pass, in order. */
  lemma {:induction false} RunPushesGazeTrail(h0: seq<Point>, frames: seq<Frame>, n: nat, height: int)
    requires DecodableUpTo(frames, n)
    ensures GazeTrail(RunPushes(h0, frames, n, height)) == GazeSamples(Points(frames, n, height))
    decreases n
  {
    if n > 0 {
      var done := Points(frames, n - 1, height);
      var h := Recent(h0 + done, HistorySize);
      RunPushesGazeTrail(h0, frames, n - 1, height);
      GazeTrailAppend(RunPushes(h0, frames, n - 1, height), PassPushes(h, frames[n - 1], height));
      PassPushesGazeTrail(h, frames[n - 1], height);
      GazeSamplesExtend(done, GazePoint(frames[n - 1].gazeInfo, height));
    }
  }

  /** Where the "Gaze" object stands after the first `n` passes. */
  function GazeObjectAfter(start: Vec3, frames: seq<Frame>, n: nat, height: int): (v: Vec3)
    requires DecodableUpTo(frames, n)
    ensures n > 0 ==> v.z == 0.0
  {
    if n == 0 then start
    else
      var p := GazePoint(frames[n - 1].gazeInfo, height);
      Vec3(p.0 as real, p.1 as real, 0.0)
  }

  /**
   * The event tests of one pass: nothing runs until the history is full; then the
   * fixation and the saccade test each write the looked-up gaze position into their
   * own sample array (which starts at all -1) and push it when they fire.
   */
  method DetectEvents(h: seq<Point>, gazeLookup: Vec3)
    returns (fixationSample: seq<real>, saccadeSample: seq<real>, events: seq<Push>)
    ensures fixationSample == if |h| == HistorySize && Fixation(h) then PositionSample(gazeLookup) else Unset
    ensures saccadeSample == if |h| == HistorySize && Saccade(h) then PositionSample(gazeLookup) else Unset
    ensures events ==
      (if |h| == HistorySize && Fixation(h) then [Push(FixationOutlet, fixationSample)] else []) +
      (if |h| == HistorySize && Saccade(h) then [Push(SaccadeOutlet, saccadeSample)] else [])
    ensures |events| == if |h| == HistorySize then 1 else 0
    ensures forall k :: 0 <= k < |events| ==> events[k].outlet != GazeOutlet
  {
    var fixationArray := new real[3](_ => -1.0);
    var saccadeArray := new real[3](_ => -1.0);
    events := [];
    if |h| == HistorySize {
      if Fixation(h) {
        fixationArray[0], fixationArray[1], fixationArray[2] := gazeLookup.x, gazeLookup.y, gazeLookup.z;
        events := events + [Push(FixationOutlet, fixationArray[..])];
      }
      if Saccade(h) {
        saccadeArray[0], saccadeArray[1], saccadeArray[2] := gazeLookup.x, gazeLookup.y, gazeLookup.z;
        events := events + [Push(SaccadeOutlet, saccadeArray[..])];
      }
      FixationXorSaccade(h);
    }
    fixationSample, saccadeSample := fixationArray[..], saccadeArray[..];
  }

  /** The state the loop keeps between passes. */
  class EyeEventLoop {
    /** `image_shape[1]`, the extent the y coordinate is flipped against. */
    const height: int
    /** `gaze_history`. */
    var history: seq<Point>
    /** The position of the "Gaze" scene object. */
    var gazeObjectPosition: Vec3
    /** Every sample pushed so far, in order. */
    var pushed: seq<Push>

    ghost predicate Valid()
      reads this
    {
      |history| <= HistorySize
    }

    constructor (height: int)
      ensures Valid() && this.height == height
      ensures history == [] && gazeObjectPosition == Vec3(0.0, 0.0, 0.0) && pushed == []
    {
      this.height := height;
      history := [];
      gazeObjectPosition := Vec3(0.0, 0.0, 0.0);
      pushed := [];
    }

    /**
     * One pass of the `while True` loop. A payload that is not four bytes raises
     * `struct.error`, which ends the loop; nothing has changed at that point.
     */
    method Iterate(frame: Frame) returns (r: Result<FrameSamples, DecodeError>)
      requires Valid()
      modifies this
      ensures Valid()
      ensures r.Err? <==> |frame.gazeInfo| != 4
      ensures r.Err? ==>
        r.error == WrongLength(|frame.gazeInfo|) &&
        history == old(history) && gazeObjectPosition == old(gazeObjectPosition) && pushed == old(pushed)
      ensures r.Ok? ==>
        var p := GazePoint(frame.gazeInfo, height);
        var h := Append(old(history), p);
        var full := |h| == HistorySize;
        var fixation := full && Fixation(h);
        var saccade := full && Saccade(h);
        && history == h
        && gazeObjectPosition == Vec3(p.0 as real, p.1 as real, 0.0)
        && r.value.fixation == (if fixation then PositionSample(frame.gazeLookup) else Unset)
        && r.value.saccade == (if saccade then PositionSample(frame.gazeLookup) else Unset)
        && r.value.gaze == GazeSample(p)
      ensures r.Ok? ==> pushed == old(pushed) + PassPushes(old(history), frame, height)
      // with a full history exactly one of fixation and saccade is pushed, before the gaze sample
      ensures r.Ok? && |history| == HistorySize ==> |pushed| == |old(pushed)| + 2
      ensures r.Ok? && |history| < HistorySize ==> |pushed| == |old(pushed)| + 1
      // every completed pass pushes exactly one gaze sample
      ensures r.Ok? ==> GazeTrail(pushed) == GazeTrail(old(pushed)) + [GazeSample(GazePoint(frame.gazeInfo, height))]
    {
      var decoded := DecodeGaze(frame.gazeInfo);
      if decoded.Err? {
        return Err(decoded.error);
      }
      var p := FlipY(decoded.value, height);
      history := Append(history, p);

      var fixationSample, saccadeSample, events := DetectEvents(history, frame.gazeLookup);
      ghost var before := pushed;
      pushed := pushed + events;

      gazeObjectPosition := Vec3(p.0 as real, p.1 as real, 0.0);
      var gazeSample := new real[3](_ => -1.0);
      gazeSample[0] := p.0 as real;
      gazeSample[1] := p.1 as real;
      gazeSample[2] := 0.0;
      pushed := pushed + [Push(GazeOutlet, gazeSample[..])];
      r := Ok(FrameSamples(fixationSample, saccadeSample, gazeSample[..]));
      assert p == GazePoint(frame.gazeInfo, height);
      assert gazeSample[..] == GazeSample(p);
      PassPushesUnfold(old(history), frame, height);
      assert events + [Push(GazeOutlet, GazeSample(p))] == PassPushes(old(history), frame, height);
      ConcatAssoc(before, events, [Push(GazeOutlet, GazeSample(p))]);
      GazeTrailAppend(before, PassPushes(old(history), frame, height));
      PassPushesGazeTrail(old(history), frame, height);
    }

    /**
     * The loop over a finite stream of messages: it runs until the stream ends or a
     * payload fails to decode. The history then holds the ten most recent gaze
     * points, every completed pass has pushed what `PassPushes` prescribes, and the
     * gaze object stands at the last completed pass's point.
     */
    method Run(frames: seq<Frame>) returns (processed: nat, stopped: Option<DecodeError>)
      requires Valid()
      modifies this
      ensures Valid()
      ensures DecodableUpTo(frames, processed)
      ensures stopped.Some? <==> processed < |frames|
      ensures stopped.Some? ==> stopped.value == WrongLength(|frames[processed].gazeInfo|)
      ensures stopped.Some? ==> |frames[processed].gazeInfo| != 4
      ensures history == Recent(old(history) + Points(frames, processed, height), HistorySize)
      ensures pushed == old(pushed) + RunPushes(old(history), frames, processed, height)
      ensures gazeObjectPosition == GazeObjectAfter(old(gazeObjectPosition), frames, processed, height)
      ensures GazeTrail(pushed) == GazeTrail(old(pushed)) + GazeSamples(Points(frames, processed, height))
    {
      processed, stopped := 0, None;
      while processed < |frames| && stopped.None?
        invariant Valid()
        invariant DecodableUpTo(frames, processed)
        invariant stopped.Some? ==> processed < |frames| && |frames[processed].gazeInfo| != 4
        invariant stopped.Some? ==> stopped.value == WrongLength(|frames[processed].gazeInfo|)
        invariant history == Recent(old(history) + Points(frames, processed, height), HistorySize)
        invariant pushed == old(pushed) + RunPushes(old(history), frames, processed, height)
        invariant gazeObjectPosition == GazeObjectAfter(old(gazeObjectPosition), frames, processed, height)
        decreases |frames| - processed, if stopped.None? then 1 else 0
      {
        ghost var done := Points(frames, processed, height);
        ghost var h := history;
        var r := Iterate(frames[processed]);
        if r.Err? {
          stopped := Some(r.error);
        } else {
          ghost var p := GazePoint(frames[processed].gazeInfo, height);
          assert DecodableUpTo(frames, processed + 1);
          assert Points(frames, processed + 1, height) == done + [p];
          HistoryExtends(old(history), done, p);
          ConcatAssoc(old(pushed), RunPushes(old(history), frames, processed, height), PassPushes(h, frames[processed], height));
          processed := processed + 1;
        }
      }
      GazeTrailAppend(old(pushed), RunPushes(old(history), frames, processed, height));
      RunPushesGazeTrail(old(history), frames, processed, height);
    }
  }

  /** One more completed pass extends the history by its point. */
  lemma HistoryExtends(h0: seq<Point>, done: seq<Point>, p: Point)
    ensures Append(Recent(h0 + done, HistorySize), p) == Recent(h0 + (done + [p]), HistorySize)
  {
  }

  lemma GazeSamplesExtend(done: seq<Point>, p: Point)
    ensures GazeSamples(done + [p]) == GazeSamples(done) + [GazeSample(p)]
  {
    assert (done + [p])[..|done|] == done;
  }

  lemma ConcatAssoc<T>(a: seq<T>, b: seq<T>, c: seq<T>)
    ensures (a + b) + c == a + (b + c)
  {
  }

  /** A pass adds exactly one sample to the gaze trail, whatever events it pushes first. */
  lemma GazeTrailOfPass(before: seq<Push>, events: seq<Push>, sample: seq<real>)
    requires forall k :: 0 <= k < |events| ==> events[k].outlet != GazeOutlet
    ensures GazeTrail(before + events + [Push(GazeOutlet, sample)]) == GazeTrail(before) + [sample]
  {
    var all := before + events + [Push(GazeOutlet, sample)];
    assert all[..|all| - 1] == before + events;
    GazeTrailAppend(before, events);
    NoGazeSamples(events);
  }

  lemma {:induction false} NoGazeSamples(pushes: seq<Push>)
    requires forall k :: 0 <= k < |pushes| ==> pushes[k].outlet != GazeOutlet
    ensures GazeTrail(pushes) == []
    decreases |pushes|
  {
    if pushes != [] {
      NoGazeSamples(pushes[..|pushes| - 1]);
    }
  }
}
