/**
 * The gaze-target / EEG gate of `RSVPController` (Assets/Scripts/CameraCapture.cs).
 *
 * Every frame a ray is cast from the headset camera. A hit on an object tagged
 * "Target" marks the target as detected, spawns a label at its position and pulls
 * one EEG sample; if a sample arrived, the EEG flag becomes "peak channel value
 * above 0.5". The object is destroyed only if the flag is set and the object is
 * also tagged "Robot" -- which a single-tag object just found to be "Target" never is.
 *
 * The engine and library calls are inputs and outputs: the raycast result and the
 * pulled sample come in, the spawned label and the destroyed object go out.
 */
module GazeTarget {
  import opened Common

  const TargetTag: string := "Target"
  const RobotTag: string := "Robot"

  /** The detection threshold of `IsEEGSignalDetected` (0.5f). */
  const Threshold: real := 0.5

  /** A scene object as the gate sees it: Unity gives each GameObject exactly one tag. */
  datatype GameObject = GameObject(id: int, tag: string, position: Vec3)

  /** `GameObject.CompareTag`: true iff the object's one tag is `tag`. */
  predicate CompareTag(o: GameObject, tag: string) {
    o.tag == tag
  }

  /** The result of `Physics.Raycast` along the camera's forward axis. */
  datatype Raycast = Miss | Hit(obj: GameObject)

  /**
   * One call of `pull_sample`: `available` is the integer the source reads back,
   * `values` the channel values the library writes into the sample buffer when a
   * sample arrived.
   */
  datatype Pull = Pull(available: int, values: seq<real>)

  /** What a frame does to the scene: the label it spawns and the object it destroys. */
  datatype Effects = Effects(spawnedLabel: Option<Vec3>, destroyed: Option<GameObject>)

  /** The fields of the controller that the frame logic reads and writes. */
  datatype GateState = GateState(
    isTargetDetected: bool,
    currentTarget: Option<GameObject>,
    isEEGSignalDetected: bool,
    eegSample: seq<real>)

  predicate IsTargetHit(ray: Raycast) {
    ray.Hit? && CompareTag(ray.obj, TargetTag)
  }

  /**
   * `Mathf.Max` over a float array: 0 for an empty array, otherwise the running
   * maximum taken from left to right.
   */
  function Max(s: seq<real>): (m: real)
    ensures |s| == 0 ==> m == 0.0
    ensures |s| > 0 ==> exists i :: 0 <= i < |s| && s[i] == m
    ensures forall i :: 0 <= i < |s| ==> s[i] <= m
  {
    if |s| == 0 then 0.0
    else if |s| == 1 then s[0]
    else
      var m := Max(s[..|s| - 1]);
      if s[|s| - 1] > m then s[|s| - 1] else m
  }

  /** The detection rule: the peak channel value is strictly above the threshold. */
  function IsEEGSignalDetected(sample: seq<real>): (detected: bool)
    ensures detected <==> exists i :: 0 <= i < |sample| && sample[i] > Threshold
  {
    Max(sample) > Threshold
  }

  /**
   * `CheckEEGSignal` on values: the pulled values overwrite the buffer and set the
   * flag only when a sample is available; otherwise nothing changes.
   */
  function EEGCheck(s: GateState, pull: Pull): (r: GateState)
    requires |pull.values| == |s.eegSample|
    ensures r.isTargetDetected == s.isTargetDetected && r.currentTarget == s.currentTarget
    ensures |r.eegSample| == |s.eegSample|
    ensures pull.available > 0 ==>
      r.eegSample == pull.values &&
      (r.isEEGSignalDetected <==> exists i :: 0 <= i < |pull.values| && pull.values[i] > Threshold)
    ensures pull.available <= 0 ==> r == s
  {
    if pull.available > 0 then
      s.(eegSample := pull.values, isEEGSignalDetected := IsEEGSignalDetected(pull.values))
    else
      s
  }

  /** The frame rule of `Update` on values: the new state and the scene effects. */
  function Step(s: GateState, ray: Raycast, pull: Pull): (r: (GateState, Effects))
    requires |pull.values| == |s.eegSample|
    ensures |r.0.eegSample| == |s.eegSample|
    // a miss or a hit on a non-target resets the target fields and touches nothing else
    ensures !IsTargetHit(ray) ==>
      r.0 == s.(isTargetDetected := false, currentTarget := None) &&
      r.1 == Effects(None, None)
    // a target hit records the target and spawns exactly one label at its position
    ensures IsTargetHit(ray) ==>
      r.0.isTargetDetected && r.0.currentTarget == Some(ray.obj) &&
      r.1.spawnedLabel == Some(ray.obj.position)
    // the EEG flag is decided by the pulled sample, and kept when none arrived
    ensures IsTargetHit(ray) && pull.available > 0 ==>
      (r.0.isEEGSignalDetected <==> exists i :: 0 <= i < |pull.values| && pull.values[i] > Threshold)
    ensures IsTargetHit(ray) && pull.available > 0 ==> r.0.eegSample == pull.values
    ensures !IsTargetHit(ray) || pull.available <= 0 ==>
      r.0.isEEGSignalDetected == s.isEEGSignalDetected && r.0.eegSample == s.eegSample
    // the destroy branch is never taken
    ensures r.1.destroyed == None
  {
    if ray.Hit? then
      if CompareTag(ray.obj, TargetTag) then
        var target := ray.obj;
        var s1 := s.(isTargetDetected := true, currentTarget := Some(target));
        var s2 := EEGCheck(s1, pull);
        var destroyed := if s2.isEEGSignalDetected && CompareTag(target, RobotTag) then Some(target) else None;
        (s2, Effects(Some(target.position), destroyed))
      else
        (s.(isTargetDetected := false, currentTarget := None), Effects(None, None))
    else
      (s.(isTargetDetected := false, currentTarget := None), Effects(None, None))
  }

  /** The inputs of one frame. */
  datatype FrameInput = FrameInput(ray: Raycast, pull: Pull)

  ghost predicate PullsFit(frames: seq<FrameInput>, channels: nat) {
    forall i :: 0 <= i < |frames| ==> |frames[i].pull.values| == channels
  }

  /** Consecutive frames: the final state and the effects of each frame in order. */
  function Run(s: GateState, frames: seq<FrameInput>): (r: (GateState, seq<Effects>))
    requires PullsFit(frames, |s.eegSample|)
    ensures |r.0.eegSample| == |s.eegSample| && |r.1| == |frames|
    decreases |frames|
  {
    if frames == [] then (s, [])
    else
      var (s1, e1) := Step(s, frames[0].ray, frames[0].pull);
      var (sn, es) := Run(s1, frames[1..]);
      (sn, [e1] + es)
  }

  /** Over any run of frames no object is ever destroyed. */
  lemma {:induction false} RunNeverDestroys(s: GateState, frames: seq<FrameInput>)
    requires PullsFit(frames, |s.eegSample|)
    ensures forall k :: 0 <= k < |frames| ==> Run(s, frames).1[k].destroyed == None
    decreases |frames|
  {
    if frames != [] {
      var (s1, e1) := Step(s, frames[0].ray, frames[0].pull);
      RunNeverDestroys(s1, frames[1..]);
      forall k | 0 <= k < |frames|
        ensures Run(s, frames).1[k].destroyed == None
      {
        if k > 0 {
          assert Run(s, frames).1[k] == Run(s1, frames[1..]).1[k - 1];
        }
      }
    }
  }

  /** Without a target hit the EEG flag and buffer never change, whatever is pulled. */
  lemma {:induction false} FlagKeptWithoutTargetHit(s: GateState, frames: seq<FrameInput>)
    requires PullsFit(frames, |s.eegSample|)
    requires forall k :: 0 <= k < |frames| ==> !IsTargetHit(frames[k].ray)
    ensures Run(s, frames).0.isEEGSignalDetected == s.isEEGSignalDetected
    ensures Run(s, frames).0.eegSample == s.eegSample
    decreases |frames|
  {
    if frames != [] {
      var (s1, e1) := Step(s, frames[0].ray, frames[0].pull);
      FlagKeptWithoutTargetHit(s1, frames[1..]);
    }
  }

  /** When no pull delivers a sample, the EEG flag is kept: it is never reset to false. */
  lemma {:induction false} FlagKeptWithoutSample(s: GateState, frames: seq<FrameInput>)
    requires PullsFit(frames, |s.eegSample|)
    requires forall k :: 0 <= k < |frames| ==> frames[k].pull.available <= 0
    ensures Run(s, frames).0.isEEGSignalDetected == s.isEEGSignalDetected
    decreases |frames|
  {
    if frames != [] {
      var (s1, e1) := Step(s, frames[0].ray, frames[0].pull);
      FlagKeptWithoutSample(s1, frames[1..]);
    }
  }

  /** The controller: the fields `Update` assigns and the sample buffer `pull_sample` fills. */
  class RSVPController {
    var currentTarget: Option<GameObject>
    var isTargetDetected: bool
    var eegSample: array<real>
    var isEEGSignalDetected: bool

    /** `isTargetDetected` mirrors `currentTarget`, which only ever holds a "Target" object. */
    ghost predicate Valid()
      reads this
    {
      && (isTargetDetected <==> currentTarget.Some?)
      && (currentTarget.Some? ==> CompareTag(currentTarget.value, TargetTag))
    }

    function State(): GateState
      reads this, eegSample
    {
      GateState(isTargetDetected, currentTarget, isEEGSignalDetected, eegSample[..])
    }

    /** `Start`: the sample buffer gets one slot per channel of the resolved EEG stream. */
    constructor (channelCount: nat)
      ensures Valid() && fresh(eegSample)
      ensures eegSample.Length == channelCount
      ensures State() == GateState(false, None, false, seq(channelCount, _ => 0.0))
    {
      currentTarget := None;
      isTargetDetected := false;
      isEEGSignalDetected := false;
      eegSample := new real[channelCount](_ => 0.0);
    }

    /** `CheckEEGSignal`: pull one sample into the buffer and, if one arrived, classify it. */
    method CheckEEGSignal(pull: Pull)
      requires |pull.values| == eegSample.Length
      modifies this`isEEGSignalDetected, eegSample
      ensures State() == EEGCheck(old(State()), pull)
    {
      var available := pull.available;
      if available > 0 {
        // pull_sample overwrites the buffer in place
        forall i | 0 <= i < eegSample.Length {
          eegSample[i] := pull.values[i];
        }
        assert eegSample[..] == pull.values;
        if IsEEGSignalDetected(eegSample[..]) {
          isEEGSignalDetected := true;
        } else {
          isEEGSignalDetected := false;
        }
      }
    }

    /** `Update`: one frame of the gate. */
    method Update(ray: Raycast, pull: Pull) returns (fx: Effects)
      requires Valid()
      requires |pull.values| == eegSample.Length
      modifies this, eegSample
      ensures Valid() && eegSample == old(eegSample)
      ensures (State(), fx) == Step(old(State()), ray, pull)
      ensures !IsTargetHit(ray) || pull.available <= 0 ==> isEEGSignalDetected == old(isEEGSignalDetected)
      ensures fx.destroyed == None
    {
      fx := Effects(None, None);
      match ray {
        case Hit(obj) =>
          if CompareTag(obj, TargetTag) {
            isTargetDetected := true;
            currentTarget := Some(obj);
            fx := fx.(spawnedLabel := Some(obj.position));
            CheckEEGSignal(pull);
            if isEEGSignalDetected && CompareTag(currentTarget.value, RobotTag) {
              fx := fx.(destroyed := currentTarget);
            }
          } else {
            isTargetDetected := false;
            currentTarget := None;
          }
        case Miss =>
          isTargetDetected := false;
          currentTarget := None;
      }
    }
  }
}
