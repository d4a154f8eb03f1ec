/**
 * The voice-activity segmentation of VoiceInputController: a per-frame
 * Update that watches the microphone volume, ends an utterance after
 * silence or after the maximum recording time (sending it), and rolls the
 * capture window over at the maximum recording time without sending.
 *
 * Two clocks are read by the source and both are inputs here: the frame
 * clock `frameTime` (what lastActiveTime is measured on) and the wall clock
 * `wallClock` (what the recording start time is measured on), in seconds.
 * The volume is an input too; how it is computed from the samples is not
 * part of this model.
 */
module VoiceInput {
  import opened Wrappers

  /** A microphone capture, identified by the wall-clock time it was started at. */
  datatype Capture = Capture(startedAt: real)

  /** The serialised settings of the controller, and whether a microphone exists. */
  datatype Config = Config(maxRecordTime: int, volumeThreshold: real, silenceDuration: real, hasDevice: bool)

  /** The controller's mutable state. */
  datatype Recorder = Recorder(
    enabledRecord: bool,
    audioClip: Option<Capture>,
    recordStartTime: Option<real>,
    lastActiveTime: real,
    isDetectingVoice: bool)

  const Initial := Recorder(false, None, None, 0.0, false)

  /** A capture in progress always has a start time, and it is the capture's own. */
  ghost predicate Consistent(r: Recorder)
  {
    r.audioClip.Some? ==> r.recordStartTime == Some(r.audioClip.value.startedAt)
  }

  /** Starting the microphone: a new capture (none without a device), detection cleared. */
  function RecordStarted(r: Recorder, cfg: Config, wallClock: real): (s: Recorder)
    ensures Consistent(s)
    ensures s.enabledRecord == r.enabledRecord
    ensures s.recordStartTime == Some(wallClock) && !s.isDetectingVoice && s.lastActiveTime == 0.0
    ensures s.audioClip.Some? <==> cfg.hasDevice
  {
    r.(audioClip := if cfg.hasDevice then Some(Capture(wallClock)) else None,
       recordStartTime := Some(wallClock),
       isDetectingVoice := false,
       lastActiveTime := 0.0)
  }

  /** Ending the microphone: no capture, no start time, detection cleared. */
  function RecordStopped(r: Recorder): (s: Recorder)
    ensures Consistent(s)
    ensures s.audioClip.None? && s.recordStartTime.None? && !s.isDetectingVoice
    ensures s.enabledRecord == r.enabledRecord && s.lastActiveTime == r.lastActiveTime
  {
    r.(audioClip := None, recordStartTime := None, isDetectingVoice := false)
  }

  /** The EnabledRecord setter. */
  function EnabledRecordSet(r: Recorder, cfg: Config, value: bool, wallClock: real): (s: Recorder)
    ensures s.enabledRecord == value
    ensures Consistent(r) ==> Consistent(s)
  {
    var t :=
      if r.enabledRecord != value then
        if value then RecordStarted(r, cfg, wallClock) else RecordStopped(r)
      else r;
    t.(enabledRecord := value)
  }

  /** Assigning the current value changes nothing; a change starts or stops the microphone. */
  lemma SetEnabledRecordTransitions(r: Recorder, cfg: Config, value: bool, wallClock: real)
    ensures r.enabledRecord == value ==> EnabledRecordSet(r, cfg, value, wallClock) == r
    ensures !r.enabledRecord && value ==>
      EnabledRecordSet(r, cfg, value, wallClock) == RecordStarted(r, cfg, wallClock).(enabledRecord := true)
    ensures r.enabledRecord && !value ==>
      EnabledRecordSet(r, cfg, value, wallClock) == RecordStopped(r).(enabledRecord := false)
  {
  }

  /** Seconds on the wall clock since the capture started. */
  function Elapsed(r: Recorder, wallClock: real): real
    requires r.recordStartTime.Some?
  {
    wallClock - r.recordStartTime.value
  }

  predicate OverMaxTime(r: Recorder, cfg: Config, wallClock: real)
    requires r.recordStartTime.Some?
  {
    Elapsed(r, wallClock) > cfg.maxRecordTime as real
  }

  /** The state after a frame and the captures it sent for transcription (at most one). */
  datatype Frame = Frame(next: Recorder, sent: seq<Capture>)

  /** One frame of Update. */
  function Tick(r: Recorder, cfg: Config, frameTime: real, wallClock: real, volume: real): (f: Frame)
    requires Consistent(r)
    ensures Consistent(f.next) && f.next.enabledRecord == r.enabledRecord
    ensures |f.sent| <= 1
    ensures f.sent != [] ==> r.audioClip.Some? && f.sent == [r.audioClip.value]
  {
    if !r.enabledRecord || r.audioClip.None? then
      Frame(r, [])
    else
      var afterVoice :=
        if volume >= cfg.volumeThreshold then
          Frame(r.(isDetectingVoice := true, lastActiveTime := frameTime), [])
        else if r.isDetectingVoice
             && (frameTime - r.lastActiveTime > cfg.silenceDuration || OverMaxTime(r, cfg, wallClock)) then
          // StopCurrentRecording hands the capture over; StartRecord opens the next one
          Frame(RecordStarted(r, cfg, wallClock), [r.audioClip.value])
        else
          Frame(r, []);
      var mid := afterVoice.next;
      if mid.recordStartTime.Some? && OverMaxTime(mid, cfg, wallClock) then
        Frame(RecordStarted(RecordStopped(mid), cfg, wallClock), afterVoice.sent)
      else
        afterVoice
  }

  /** Nothing happens while recording is disabled or there is no capture. */
  lemma IdleTickChangesNothing(r: Recorder, cfg: Config, frameTime: real, wallClock: real, volume: real)
    requires Consistent(r)
    requires !r.enabledRecord || r.audioClip.None?
    ensures Tick(r, cfg, frameTime, wallClock, volume) == Frame(r, [])
  {
  }

  /**
   * An utterance is sent exactly when voice was already being detected, this
   * frame is below the threshold, and either the silence lasted too long or
   * the capture is over the maximum time; recording then restarts with
   * detection cleared.
   */
  lemma SendsExactlyOnUtteranceEnd(r: Recorder, cfg: Config, frameTime: real, wallClock: real, volume: real)
    requires Consistent(r) && r.enabledRecord && r.audioClip.Some?
    ensures var f := Tick(r, cfg, frameTime, wallClock, volume);
      && (f.sent != [] <==>
            && r.isDetectingVoice
            && volume < cfg.volumeThreshold
            && (frameTime - r.lastActiveTime > cfg.silenceDuration || OverMaxTime(r, cfg, wallClock)))
      && (f.sent != [] ==>
            && f.sent == [r.audioClip.value]
            && f.next.recordStartTime == Some(wallClock)
            && !f.next.isDetectingVoice
            && f.next.lastActiveTime == 0.0)
  {
  }

  /** A loud frame marks voice as detected at this frame's time, unless the window rolls over. */
  lemma LoudFrameDetectsVoice(r: Recorder, cfg: Config, frameTime: real, wallClock: real, volume: real)
    requires Consistent(r) && r.enabledRecord && r.audioClip.Some?
    requires volume >= cfg.volumeThreshold
    ensures var f := Tick(r, cfg, frameTime, wallClock, volume);
      && f.sent == []
      && (!OverMaxTime(r, cfg, wallClock) ==>
            f.next == r.(isDetectingVoice := true, lastActiveTime := frameTime))
      && (OverMaxTime(r, cfg, wallClock) ==>
            f.next == RecordStarted(r, cfg, wallClock))
  {
  }

  /** A capture over the maximum time is restarted without sending, even while the voice is loud. */
  lemma RolloverDoesNotSend(r: Recorder, cfg: Config, frameTime: real, wallClock: real, volume: real)
    requires Consistent(r) && r.enabledRecord && r.audioClip.Some?
    requires OverMaxTime(r, cfg, wallClock)
    requires volume >= cfg.volumeThreshold || !r.isDetectingVoice
    ensures var f := Tick(r, cfg, frameTime, wallClock, volume);
      && f.sent == []
      && f.next == RecordStarted(r, cfg, wallClock)
  {
  }

  /**
   * A quiet frame that ends no utterance and finds the capture within the
   * maximum time leaves the recorder as it was and sends nothing.
   */
  lemma QuietFrameChangesNothing(r: Recorder, cfg: Config, frameTime: real, wallClock: real, volume: real)
    requires Consistent(r) && r.enabledRecord && r.audioClip.Some?
    requires volume < cfg.volumeThreshold
    requires !r.isDetectingVoice || frameTime - r.lastActiveTime <= cfg.silenceDuration
    requires !OverMaxTime(r, cfg, wallClock)
    ensures Tick(r, cfg, frameTime, wallClock, volume) == Frame(r, [])
  {
  }

  /**
   * With a non-negative maximum, every active frame ends with the open
   * capture window no longer than the maximum recording time.
   */
  lemma WindowBoundedAfterTick(r: Recorder, cfg: Config, frameTime: real, wallClock: real, volume: real)
    requires Consistent(r) && r.enabledRecord && r.audioClip.Some?
    requires cfg.maxRecordTime >= 0
    ensures var f := Tick(r, cfg, frameTime, wallClock, volume);
      f.next.recordStartTime.Some? && !OverMaxTime(f.next, cfg, wallClock)
  {
  }

  /** What the controller is told between two observations. */
  datatype Input =
    | Enable(value: bool, wallClock: real)
    | Update(frameTime: real, wallClock: real, volume: real)

  function InputClock(i: Input): real
  {
    match i
    case Enable(_, w) => w
    case Update(_, w, _) => w
  }

  /** The wall clock strictly increases from input to input, and after `after`. */
  ghost predicate ClockIncreasing(inputs: seq<Input>, after: real)
  {
    && (|inputs| > 0 ==> after < InputClock(inputs[0]))
    && forall i, j :: 0 <= i < j < |inputs| ==> InputClock(inputs[i]) < InputClock(inputs[j])
  }

  /** Every capture sent over a sequence of inputs, in order. */
  function Replay(r: Recorder, cfg: Config, inputs: seq<Input>): (f: Frame)
    requires Consistent(r)
    ensures Consistent(f.next)
    decreases |inputs|
  {
    if inputs == [] then Frame(r, [])
    else
      match inputs[0]
      case Enable(v, w) => Replay(EnabledRecordSet(r, cfg, v, w), cfg, inputs[1..])
      case Update(t, w, vol) =>
        var f := Tick(r, cfg, t, w, vol);
        var rest := Replay(f.next, cfg, inputs[1..]);
        Frame(rest.next, f.sent + rest.sent)
  }

  ghost predicate StrictlyIncreasing(caps: seq<Capture>)
  {
    forall i, j :: 0 <= i < j < |caps| ==> caps[i].startedAt < caps[j].startedAt
  }

  /**
   * When the wall clock moves forward between inputs, the captures sent are
   * in strictly increasing start order, so no capture is ever sent twice.
   * Each one sent is either the capture open at the outset or one started
   * after `clock`.
   */
  lemma {:induction false} SentCapturesInOrder(r: Recorder, cfg: Config, inputs: seq<Input>, clock: real)
    requires Consistent(r)
    requires r.recordStartTime.Some? ==> r.recordStartTime.value <= clock
    requires ClockIncreasing(inputs, clock)
    ensures var f := Replay(r, cfg, inputs);
      && StrictlyIncreasing(f.sent)
      && (forall k :: 0 <= k < |f.sent| ==>
            (r.audioClip.Some? && f.sent[k] == r.audioClip.value) || f.sent[k].startedAt > clock)
    decreases |inputs|
  {
    if inputs != [] {
      var w := InputClock(inputs[0]);
      ClockIncreasingTail(inputs, clock);
      match inputs[0]
      case Enable(v, _) =>
        SentCapturesInOrder(EnabledRecordSet(r, cfg, v, w), cfg, inputs[1..], w);
      case Update(t, _, vol) =>
        SentCapturesInOrder(Tick(r, cfg, t, w, vol).next, cfg, inputs[1..], w);
        UpdateSendsInOrder(r, cfg, inputs, clock);
    }
  }

  lemma ClockIncreasingTail(inputs: seq<Input>, clock: real)
    requires ClockIncreasing(inputs, clock) && inputs != []
    ensures ClockIncreasing(inputs[1..], InputClock(inputs[0]))
  {
    forall i, j | 0 <= i < j < |inputs[1..]|
      ensures InputClock(inputs[1..][i]) < InputClock(inputs[1..][j])
    {
      assert inputs[1..][i] == inputs[i + 1] && inputs[1..][j] == inputs[j + 1];
    }
    if |inputs[1..]| > 0 {
      assert inputs[1..][0] == inputs[1];
    }
  }

  /** The step of `SentCapturesInOrder` for a frame, given the claim for the inputs after it. */
  lemma UpdateSendsInOrder(r: Recorder, cfg: Config, inputs: seq<Input>, clock: real)
    requires Consistent(r)
    requires r.recordStartTime.Some? ==> r.recordStartTime.value <= clock
    requires inputs != [] && inputs[0].Update? && clock < InputClock(inputs[0])
    requires var f := Tick(r, cfg, inputs[0].frameTime, inputs[0].wallClock, inputs[0].volume);
      var rest := Replay(f.next, cfg, inputs[1..]);
      && StrictlyIncreasing(rest.sent)
      && (forall k :: 0 <= k < |rest.sent| ==>
            (f.next.audioClip.Some? && rest.sent[k] == f.next.audioClip.value) || rest.sent[k].startedAt > inputs[0].wallClock)
    ensures var f := Replay(r, cfg, inputs);
      && StrictlyIncreasing(f.sent)
      && (forall k :: 0 <= k < |f.sent| ==>
            (r.audioClip.Some? && f.sent[k] == r.audioClip.value) || f.sent[k].startedAt > clock)
  {
    var w := inputs[0].wallClock;
    var f := Tick(r, cfg, inputs[0].frameTime, w, inputs[0].volume);
    var rest := Replay(f.next, cfg, inputs[1..]);
    assert Replay(r, cfg, inputs).sent == f.sent + rest.sent;
    if f.sent != [] {
      // a frame that sends has restarted the capture at `w`
      assert f.next.audioClip.Some? ==> f.next.audioClip.value.startedAt == w;
      assert f.sent[0].startedAt <= clock;
    }
  }

  /** The voice input controller, with its fields updated in place. */
  class VoiceInputController {
    const config: Config
    var enabledRecordField: bool
    var audioClip: Option<Capture>
    var recordStartTime: Option<real>
    var lastActiveTime: real
    var isDetectingVoice: bool
    /** Captures handed to the transcription request, in order. */
    var sentUtterances: seq<Capture>

    function State(): Recorder
      reads this
    {
      Recorder(enabledRecordField, audioClip, recordStartTime, lastActiveTime, isDetectingVoice)
    }

    ghost predicate Valid()
      reads this
    {
      Consistent(State())
    }

    constructor (config: Config)
      ensures Valid() && State() == Initial && sentUtterances == [] && this.config == config
    {
      this.config := config;
      enabledRecordField := false;
      audioClip := None;
      recordStartTime := None;
      lastActiveTime := 0.0;
      isDetectingVoice := false;
      sentUtterances := [];
    }

    method SetEnabledRecord(value: bool, wallClock: real)
      requires Valid()
      modifies this
      ensures Valid()
      ensures State() == EnabledRecordSet(old(State()), config, value, wallClock)
      ensures sentUtterances == old(sentUtterances)
    {
      if enabledRecordField != value {
        if value {
          StartRecord(wallClock);
        } else {
          StopRecord();
        }
      }
      enabledRecordField := value;
    }

    method Update(frameTime: real, wallClock: real, volume: real)
      requires Valid()
      modifies this
      ensures Valid()
      ensures var f := Tick(old(State()), config, frameTime, wallClock, volume);
        State() == f.next && sentUtterances == old(sentUtterances) + f.sent
    {
      if !enabledRecordField || audioClip.None? {
        return;
      }
      if volume >= config.volumeThreshold {
        if !isDetectingVoice {
          isDetectingVoice := true;
        }
        lastActiveTime := frameTime;
      } else if isDetectingVoice
             && (frameTime - lastActiveTime > config.silenceDuration
                 || wallClock - recordStartTime.value > config.maxRecordTime as real) {
        StopCurrentRecording();
        StartRecord(wallClock);
      }
      if recordStartTime.Some? && wallClock - recordStartTime.value > config.maxRecordTime as real {
        StopRecord();
        StartRecord(wallClock);
      }
    }

    /** Hands the current capture over for transcription. */
    method StopCurrentRecording()
      modifies this
      ensures State() == old(State())
      ensures sentUtterances == old(sentUtterances) + (if audioClip.Some? then [audioClip.value] else [])
    {
      if audioClip.None? {
        return;
      }
      sentUtterances := sentUtterances + [audioClip.value];
    }

    method StartRecord(wallClock: real)
      modifies this
      ensures State() == RecordStarted(old(State()), config, wallClock)
      ensures sentUtterances == old(sentUtterances)
    {
      audioClip := if config.hasDevice then Some(Capture(wallClock)) else None;
      recordStartTime := Some(wallClock);
      isDetectingVoice := false;
      lastActiveTime := 0.0;
    }

    method StopRecord()
      modifies this
      ensures State() == RecordStopped(old(State()))
      ensures sentUtterances == old(sentUtterances)
    {
      audioClip := None;
      recordStartTime := None;
      isDetectingVoice := false;
    }
  }
}
