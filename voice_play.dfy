/**
 * The playback wait-list of VoicePlayController: a FIFO of clips drained by a
 * per-frame Update that plays one clip at a time inside a trimmed window.
 *
 * The pure function `Tick` is the specification of one Update; the class
 * `VoicePlayController` holds the same state in fields and is proved to
 * follow it.  `Run` replays a whole trace of appends, frames and elapsed
 * time, and `RunIsFifo` proves that clips start in append order, each once.
 */
module VoicePlay {
  import opened Wrappers

  /** An audio clip: where it came from and its duration in seconds. */
  datatype Clip = Clip(name: string, length: real)

  /** The engine's audio source as the controller sees it. */
  datatype AudioSource = AudioSource(isPlaying: bool, time: real, clip: Option<Clip>)

  /** The fixed trim configuration: seconds cut at the head and at the tail of every clip. */
  datatype Trim = Trim(start: real, end: real)

  /** The controller's state: wait list, audio source, stop time and the idle flag. */
  datatype Player = Player(waitList: seq<Clip>, source: AudioSource, stopTime: real, alreadyStopped: bool)

  const Silent := AudioSource(false, 0.0, None)
  const Fresh := Player([], Silent, 0.0, false)

  /** States the controller can reach: idle-and-stopped implies silent, and a playing source holds a clip. */
  ghost predicate Consistent(p: Player)
  {
    && (p.alreadyStopped ==> !p.source.isPlaying)
    && (p.source.isPlaying ==> p.source.clip.Some?)
  }

  /** One frame of Update. */
  function Tick(p: Player, trim: Trim): (r: Player)
    // the wait list loses exactly its head when, and only when, a silent source starts a clip
    ensures r.waitList == if !p.source.isPlaying && |p.waitList| > 0 then p.waitList[1..] else p.waitList
    // a tick that finds the source playing never starts another clip
    ensures p.source.isPlaying ==> r.source.clip == p.source.clip && r.source.time == p.source.time
    ensures Consistent(p) ==> Consistent(r)
  {
    if |p.waitList| <= 0 && p.alreadyStopped then
      p
    else if p.source.isPlaying then
      if p.source.time >= p.stopTime then
        p.(source := p.source.(isPlaying := false),
           alreadyStopped := if |p.waitList| <= 0 then true else p.alreadyStopped)
      else
        p
    else if |p.waitList| <= 0 then
      p
    else
      var head := p.waitList[0];
      Player(p.waitList[1..], AudioSource(true, trim.start, Some(head)), head.length - trim.end, false)
  }

  /** The environment step between two frames: a playing source advances its position. */
  function Elapse(p: Player, dt: real): (r: Player)
    requires dt >= 0.0
    ensures r.waitList == p.waitList && r.stopTime == p.stopTime && r.alreadyStopped == p.alreadyStopped
    ensures r.source.time >= p.source.time
    ensures Consistent(p) ==> Consistent(r)
  {
    if p.source.isPlaying then p.(source := p.source.(time := p.source.time + dt)) else p
  }

  lemma IdleAndStoppedIsFixpoint(p: Player, trim: Trim)
    requires |p.waitList| == 0 && p.alreadyStopped
    ensures Tick(p, trim) == p
  {
  }

  lemma SilentAndEmptyIsFixpoint(p: Player, trim: Trim)
    requires |p.waitList| == 0 && !p.source.isPlaying
    ensures Tick(p, trim) == p
  {
  }

  /** A silent source with clips waiting starts exactly the head, inside the trimmed window. */
  lemma StartsHead(p: Player, trim: Trim)
    requires !p.source.isPlaying && |p.waitList| > 0
    ensures var r := Tick(p, trim);
      && r.source == AudioSource(true, trim.start, Some(p.waitList[0]))
      && r.stopTime == p.waitList[0].length - trim.end
      && !r.alreadyStopped
      && [p.waitList[0]] + r.waitList == p.waitList
  {
  }

  /** A playing source is stopped exactly when its position has reached the stop time. */
  lemma StopsOnlyAtStopTime(p: Player, trim: Trim)
    requires Consistent(p) && p.source.isPlaying
    ensures var r := Tick(p, trim);
      && (r.source.isPlaying <==> p.source.time < p.stopTime)
      && (r.source.isPlaying ==> r == p)
      && (!r.source.isPlaying ==> r.alreadyStopped == (|p.waitList| == 0))
  {
  }

  /**
   * The next clip never starts on the frame that stops the current one, but
   * it does start on the following frame.
   */
  lemma NextClipStartsOnLaterFrame(p: Player, trim: Trim)
    requires Consistent(p) && p.source.isPlaying && p.source.time >= p.stopTime && |p.waitList| > 0
    ensures var r := Tick(p, trim);
      && !r.source.isPlaying && r.waitList == p.waitList
      && Tick(r, trim).source == AudioSource(true, trim.start, Some(p.waitList[0]))
  {
  }

  /**
   * When the head trim reaches past the stop time, the clip that starts is
   * stopped by the very next frame, however little or much time passed.
   */
  lemma EmptyWindowStopsOnNextFrame(p: Player, trim: Trim, dt: real)
    requires !p.source.isPlaying && |p.waitList| > 0 && dt >= 0.0
    requires trim.start >= p.waitList[0].length - trim.end
    ensures var r := Tick(Elapse(Tick(p, trim), dt), trim);
      && !r.source.isPlaying
      && r.source.clip == Some(p.waitList[0])
      && r.waitList == p.waitList[1..]
  {
  }

  /** What happens to the controller between two observations. */
  datatype Event = Append(clip: Clip) | Frame | Advance(dt: real)

  /** The final state of a trace and the clips it started, in start order. */
  datatype Trace = Trace(final: Player, started: seq<Clip>)

  function Appended(evs: seq<Event>): (clips: seq<Clip>)
    ensures |clips| <= |evs|
  {
    if evs == [] then []
    else (if evs[0].Append? then [evs[0].clip] else []) + Appended(evs[1..])
  }

  function Run(p: Player, trim: Trim, evs: seq<Event>): Trace
    requires forall i :: 0 <= i < |evs| ==> evs[i].Advance? ==> evs[i].dt >= 0.0
    decreases |evs|
  {
    if evs == [] then Trace(p, [])
    else
      match evs[0]
      case Append(c) => Run(p.(waitList := p.waitList + [c]), trim, evs[1..])
      case Advance(dt) => Run(Elapse(p, dt), trim, evs[1..])
      case Frame =>
        var q := Tick(p, trim);
        var rest := Run(q, trim, evs[1..]);
        if |q.waitList| < |p.waitList| then Trace(rest.final, [p.waitList[0]] + rest.started) else rest
  }

  /**
   * FIFO: over any trace, the clips started followed by those still waiting
   * are exactly the clips that were waiting followed by those appended.  So
   * clips start in append order and none starts twice.
   */
  lemma {:induction false} RunIsFifo(p: Player, trim: Trim, evs: seq<Event>)
    requires forall i :: 0 <= i < |evs| ==> evs[i].Advance? ==> evs[i].dt >= 0.0
    ensures Run(p, trim, evs).started + Run(p, trim, evs).final.waitList == p.waitList + Appended(evs)
    decreases |evs|
  {
    if evs != [] {
      match evs[0]
      case Append(c) =>
        RunIsFifo(p.(waitList := p.waitList + [c]), trim, evs[1..]);
        FifoAppendStep(p, trim, evs);
      case Advance(dt) =>
        RunIsFifo(Elapse(p, dt), trim, evs[1..]);
        assert Run(p, trim, evs) == Run(Elapse(p, dt), trim, evs[1..]);
        assert Appended(evs) == Appended(evs[1..]);
      case Frame =>
        RunIsFifo(Tick(p, trim), trim, evs[1..]);
        FifoFrameStep(p, trim, evs);
    }
  }

  lemma FifoAppendStep(p: Player, trim: Trim, evs: seq<Event>)
    requires forall i :: 0 <= i < |evs| ==> evs[i].Advance? ==> evs[i].dt >= 0.0
    requires evs != [] && evs[0].Append?
    requires var q := p.(waitList := p.waitList + [evs[0].clip]);
      Run(q, trim, evs[1..]).started + Run(q, trim, evs[1..]).final.waitList == q.waitList + Appended(evs[1..])
    ensures Run(p, trim, evs).started + Run(p, trim, evs).final.waitList == p.waitList + Appended(evs)
  {
    var c := evs[0].clip;
    assert Appended(evs) == [c] + Appended(evs[1..]);
    assert p.waitList + ([c] + Appended(evs[1..])) == (p.waitList + [c]) + Appended(evs[1..]);
  }

  lemma FifoFrameStep(p: Player, trim: Trim, evs: seq<Event>)
    requires forall i :: 0 <= i < |evs| ==> evs[i].Advance? ==> evs[i].dt >= 0.0
    requires evs != [] && evs[0].Frame?
    requires var q := Tick(p, trim);
      Run(q, trim, evs[1..]).started + Run(q, trim, evs[1..]).final.waitList == q.waitList + Appended(evs[1..])
    ensures Run(p, trim, evs).started + Run(p, trim, evs).final.waitList == p.waitList + Appended(evs)
  {
    var q := Tick(p, trim);
    var rest := Run(q, trim, evs[1..]);
    assert Appended(evs) == Appended(evs[1..]);
    if |q.waitList| < |p.waitList| {
      assert Run(p, trim, evs) == Trace(rest.final, [p.waitList[0]] + rest.started);
      assert p.waitList == [p.waitList[0]] + q.waitList;
      PrependHead(p.waitList[0], rest.started, rest.final.waitList, q.waitList, Appended(evs));
    } else {
      assert Run(p, trim, evs) == rest;
    }
  }

  lemma PrependHead<T>(h: T, started: seq<T>, waiting: seq<T>, before: seq<T>, added: seq<T>)
    requires started + waiting == before + added
    ensures ([h] + started) + waiting == ([h] + before) + added
  {
    calc {
      ([h] + started) + waiting;
      [h] + (started + waiting);
      [h] + (before + added);
      ([h] + before) + added;
    }
  }

  /** Every state a trace reaches from a consistent state is consistent. */
  lemma {:induction false} RunKeepsConsistent(p: Player, trim: Trim, evs: seq<Event>)
    requires forall i :: 0 <= i < |evs| ==> evs[i].Advance? ==> evs[i].dt >= 0.0
    requires Consistent(p)
    ensures Consistent(Run(p, trim, evs).final)
    decreases |evs|
  {
    if evs != [] {
      match evs[0]
      case Append(c) => RunKeepsConsistent(p.(waitList := p.waitList + [c]), trim, evs[1..]);
      case Advance(dt) => RunKeepsConsistent(Elapse(p, dt), trim, evs[1..]);
      case Frame => RunKeepsConsistent(Tick(p, trim), trim, evs[1..]);
    }
  }

  /** The playback controller, with its fields updated in place. */
  class VoicePlayController {
    var playWaitList: seq<Clip>
    var characterAudioSource: AudioSource
    const trimStart: real
    const trimEnd: real
    var audioStopTime: real
    var alreadyStopped: bool

    /** Clips started so far, and clips ever appended, in order. */
    ghost var played: seq<Clip>
    ghost var appended: seq<Clip>

    function State(): Player
      reads this
    {
      Player(playWaitList, characterAudioSource, audioStopTime, alreadyStopped)
    }

    ghost predicate Valid()
      reads this
    {
      && Consistent(State())
      && played + playWaitList == appended
      && (characterAudioSource.clip.Some? <==> |played| > 0)
      && (|played| > 0 ==> characterAudioSource.clip == Some(played[|played| - 1]))
    }

    constructor (trimStart: real, trimEnd: real)
      ensures Valid() && State() == Fresh && appended == []
      ensures this.trimStart == trimStart && this.trimEnd == trimEnd
    {
      this.trimStart := trimStart;
      this.trimEnd := trimEnd;
      playWaitList := [];
      characterAudioSource := Silent;
      audioStopTime := 0.0;
      alreadyStopped := false;
      played := [];
      appended := [];
    }

    method AddAudioClipToWaitList(clip: Clip)
      requires Valid()
      modifies this
      ensures Valid()
      ensures playWaitList == old(playWaitList) + [clip]
      ensures characterAudioSource == old(characterAudioSource)
      ensures audioStopTime == old(audioStopTime) && alreadyStopped == old(alreadyStopped)
      ensures played == old(played) && appended == old(appended) + [clip]
    {
      playWaitList := playWaitList + [clip];
      appended := appended + [clip];
    }

    method Update()
      requires Valid()
      modifies this
      ensures Valid()
      ensures State() == Tick(old(State()), Trim(trimStart, trimEnd))
      ensures appended == old(appended)
      ensures played == if |playWaitList| < |old(playWaitList)| then old(played) + [old(playWaitList)[0]] else old(played)
    {
      if |playWaitList| <= 0 && alreadyStopped {
        return;
      }
      if characterAudioSource.isPlaying {
        if characterAudioSource.time >= audioStopTime {
          characterAudioSource := characterAudioSource.(isPlaying := false);
          if |playWaitList| <= 0 {
            alreadyStopped := true;
          }
        }
      } else {
        if |playWaitList| <= 0 {
          return;
        }
        alreadyStopped := false;
        var clip := playWaitList[0];
        characterAudioSource := characterAudioSource.(clip := Some(clip));
        playWaitList := playWaitList[1..];
        played := played + [clip];
        audioStopTime := clip.length - trimEnd;
        characterAudioSource := characterAudioSource.(time := trimStart);
        characterAudioSource := characterAudioSource.(isPlaying := true);
      }
    }

    /** The engine advancing the audio source's position by `dt` seconds. */
    method AdvanceAudio(dt: real)
      requires Valid() && dt >= 0.0
      modifies this
      ensures Valid()
      ensures State() == Elapse(old(State()), dt)
      ensures played == old(played) && appended == old(appended)
    {
      if characterAudioSource.isPlaying {
        characterAudioSource := characterAudioSource.(time := characterAudioSource.time + dt);
      }
    }
  }
}
