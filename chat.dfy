/**
 * ChatController: the session guard and the streamed-reply consumer of
 * SendChatMessage, the clip download it triggers, and the submit decision of
 * the message box.
 *
 * The reply arrives as text lines; turning a line into a record (the JSON
 * decoder) and fetching a clip by URL (the web request) are functions given
 * as parameters, and either may fail.  `Consume` is the specification of the
 * reading loop; `ChatController.SendChatMessage` runs that loop in place,
 * updating the message views and the playback queue, and is proved to
 * follow it.
 */
module Chat {
  import opened Wrappers
  import opened VoicePlay

  /** One decoded reply record; any field may be missing (null). */
  datatype ChatResponse = ChatResponse(content: Option<string>, status: Option<string>, wav: Option<string>)

  /** The HTTP response: refused outright, or a body of lines that may end in a read error. */
  datatype ReplyStream = Rejected | Stream(lines: seq<string>, truncated: bool)

  datatype Failure = TransportFailure | DecodeFailure | DownloadFailure

  /** Why reading stopped: the lines ran out, a "finished" record, or an exception. */
  datatype Stop = Exhausted | Finished | Failed(failure: Failure)

  /**
   * What the loop has produced so far: the running transcript
   * (responseContent), the text shown in the reply bubble, the clip ids
   * requested and the clips handed to the playback queue.
   */
  datatype Acc = Acc(transcript: string, displayed: string, fetched: seq<string>, clips: seq<Clip>)

  const Empty := Acc("", "", [], [])

  /** The result of reading one line. */
  datatype Step = Continue(acc: Acc) | Halt(acc: Acc, stop: Stop)

  /** The result of reading lines: what was produced, why it stopped, and how many lines were read. */
  datatype Progress = Progress(acc: Acc, stop: Stop, read: nat)

  const BaseUrl := "http://localhost:8000"

  /** The address DownloadWav requests a clip from. */
  function WavUrl(wavId: string): string
  {
    BaseUrl + "/voice_wav/" + wavId + ".wav"
  }

  /** DownloadWav: the clip at the id's address, or None when the request does not succeed. */
  function Fetch(download: string -> Option<Clip>, wavId: string): Option<Clip>
  {
    download(WavUrl(wavId))
  }

  /** The text a line contributes to the transcript, read on its own. */
  function TextOf(line: string, decode: string -> Option<ChatResponse>): string
  {
    if line == "" then ""
    else match decode(line)
      case None => ""
      case Some(r) => if r.status == Some("finished") || IsNullOrEmpty(r.content) then "" else r.content.value
  }

  /** The clip id a line asks for, read on its own. */
  function WavOf(line: string, decode: string -> Option<ChatResponse>): seq<string>
  {
    if line == "" then []
    else match decode(line)
      case None => []
      case Some(r) =>
        if r.status == Some("finished") || IsNullOrEmpty(r.content) || IsNullOrEmpty(r.wav) then [] else [r.wav.value]
  }

  function Texts(lines: seq<string>, decode: string -> Option<ChatResponse>): string
  {
    if lines == [] then "" else TextOf(lines[0], decode) + Texts(lines[1..], decode)
  }

  function WavIds(lines: seq<string>, decode: string -> Option<ChatResponse>): seq<string>
  {
    if lines == [] then [] else WavOf(lines[0], decode) + WavIds(lines[1..], decode)
  }

  /** One pass of the loop body. */
  function ReadLine(acc: Acc, line: string, decode: string -> Option<ChatResponse>,
                    download: string -> Option<Clip>): (s: Step)
    // the transcript and the requested ids only ever grow, by what the line itself carries
    ensures s.acc.transcript == acc.transcript + TextOf(line, decode)
    ensures s.acc.fetched == acc.fetched + WavOf(line, decode)
    // a clip is enqueued only when its download succeeded, and then it is that download's clip
    ensures s.acc.clips == acc.clips || (|WavOf(line, decode)| == 1 && Fetch(download, WavOf(line, decode)[0]).Some? && s.acc.clips == acc.clips + [Fetch(download, WavOf(line, decode)[0]).value])
    ensures s.Halt? ==> s.stop != Exhausted
  {
    if line == "" then Continue(acc)
    else match decode(line)
      case None => Halt(acc, Failed(DecodeFailure))
      case Some(r) =>
        if r.status == Some("finished") then Halt(acc, Finished)
        else if IsNullOrEmpty(r.content) then Continue(acc)
        else
          var text := acc.transcript + r.content.value;
          if IsNullOrEmpty(r.wav) then Continue(acc.(transcript := text, displayed := text))
          else
            match Fetch(download, r.wav.value)
            case None => Halt(acc.(transcript := text, fetched := acc.fetched + [r.wav.value]), Failed(DownloadFailure))
            case Some(clip) => Continue(Acc(text, text, acc.fetched + [r.wav.value], acc.clips + [clip]))
  }

  /** The reading loop over the lines of a reply. */
  function Consume(acc: Acc, lines: seq<string>, decode: string -> Option<ChatResponse>,
                   download: string -> Option<Clip>): (p: Progress)
    ensures p.read <= |lines|
    // reading runs to the last line unless something stopped it, and a stop consumes its own line
    ensures p.stop == Exhausted ==> p.read == |lines|
    ensures p.stop != Exhausted ==> p.read >= 1
    decreases |lines|
  {
    if lines == [] then Progress(acc, Exhausted, 0)
    else match ReadLine(acc, lines[0], decode, download)
      case Continue(a) =>
        var p := Consume(a, lines[1..], decode, download);
        p.(read := p.read + 1)
      case Halt(a, s) => Progress(a, s, 1)
  }

  lemma ConsumeUnfold(acc: Acc, lines: seq<string>, i: nat, decode: string -> Option<ChatResponse>,
                      download: string -> Option<Clip>)
    requires i < |lines|
    ensures var p := Consume(acc, lines[i..], decode, download);
      match ReadLine(acc, lines[i], decode, download)
      case Continue(a) =>
        var q := Consume(a, lines[i + 1..], decode, download);
        p.acc == q.acc && p.stop == q.stop
      case Halt(a, s) => p.acc == a && p.stop == s
  {
    assert lines[i..][0] == lines[i];
    assert lines[i..][1..] == lines[i + 1..];
  }

  /**
   * Append only: the transcript grows by the text of every line read, in
   * line order, and the clip ids requested are those of the lines read, in
   * line order; nothing already there is rewritten.
   */
  lemma {:induction false} ConsumeAppendsInOrder(acc: Acc, lines: seq<string>,
                                                 decode: string -> Option<ChatResponse>,
                                                 download: string -> Option<Clip>)
    ensures var p := Consume(acc, lines, decode, download);
      && p.acc.transcript == acc.transcript + Texts(lines[..p.read], decode)
      && p.acc.fetched == acc.fetched + WavIds(lines[..p.read], decode)
    decreases |lines|
  {
    var p := Consume(acc, lines, decode, download);
    if lines == [] {
      assert lines[..p.read] == [];
    } else {
      match ReadLine(acc, lines[0], decode, download)
      case Continue(a) =>
        var rest := lines[1..];
        var q := Consume(a, rest, decode, download);
        ConsumeAppendsInOrder(a, rest, decode, download);
        var prefix := lines[..p.read];
        assert prefix[0] == lines[0] && prefix[1..] == rest[..q.read];
        assert Texts(prefix, decode) == TextOf(lines[0], decode) + Texts(rest[..q.read], decode);
        assert WavIds(prefix, decode) == WavOf(lines[0], decode) + WavIds(rest[..q.read], decode);
        AppendAssoc(acc.transcript, TextOf(lines[0], decode), Texts(rest[..q.read], decode));
        AppendAssoc(acc.fetched, WavOf(lines[0], decode), WavIds(rest[..q.read], decode));
      case Halt(a, s) =>
        assert lines[..p.read] == [lines[0]];
        assert Texts([lines[0]], decode) == TextOf(lines[0], decode) + Texts([], decode);
        assert WavIds([lines[0]], decode) == WavOf(lines[0], decode) + WavIds([], decode);
    }
  }

  lemma AppendAssoc<T>(a: seq<T>, b: seq<T>, c: seq<T>)
    ensures (a + b) + c == a + (b + c)
  {
  }

  /** Every requested clip id is paired, in order, with the clip its download returned. */
  ghost predicate Paired(acc: Acc, download: string -> Option<Clip>)
  {
    && |acc.fetched| == |acc.clips|
    && forall i :: 0 <= i < |acc.clips| ==> Fetch(download, acc.fetched[i]) == Some(acc.clips[i])
  }

  /**
   * The queue and the requested ids are paired, except that reading stopped
   * by a failed download leaves that download's id, the last one, unpaired.
   */
  ghost predicate PairedUntil(acc: Acc, stop: Stop, download: string -> Option<Clip>)
  {
    if stop == Failed(DownloadFailure) then
      && |acc.fetched| > 0
      && Fetch(download, acc.fetched[|acc.fetched| - 1]).None?
      && Paired(acc.(fetched := acc.fetched[..|acc.fetched| - 1]), download)
    else Paired(acc, download)
  }

  lemma ReadLinePairsClips(acc: Acc, line: string, decode: string -> Option<ChatResponse>,
                           download: string -> Option<Clip>)
    requires Paired(acc, download)
    ensures var s := ReadLine(acc, line, decode, download);
      && acc.clips <= s.acc.clips
      && PairedUntil(s.acc, if s.Halt? then s.stop else Exhausted, download)
  {
    var s := ReadLine(acc, line, decode, download);
    if s.Continue? && s.acc.clips != acc.clips {
      assert s.acc.fetched == acc.fetched + [s.acc.fetched[|s.acc.fetched| - 1]];
    }
    if s.Halt? && s.stop == Failed(DownloadFailure) {
      assert s.acc.fetched[..|s.acc.fetched| - 1] == acc.fetched;
    }
  }

  /**
   * Clips reach the playback queue in the order of their records, one per
   * successful download: the queue and the requested ids stay paired, except
   * that a failed download leaves its id without a clip and ends the reply.
   */
  lemma {:induction false} ConsumePairsClips(acc: Acc, lines: seq<string>,
                                             decode: string -> Option<ChatResponse>,
                                             download: string -> Option<Clip>)
    requires Paired(acc, download)
    ensures var p := Consume(acc, lines, decode, download);
      acc.clips <= p.acc.clips && PairedUntil(p.acc, p.stop, download)
    decreases |lines|
  {
    if lines != [] {
      ReadLinePairsClips(acc, lines[0], decode, download);
      match ReadLine(acc, lines[0], decode, download)
      case Continue(a) =>
        ConsumePairsClips(a, lines[1..], decode, download);
      case Halt(a, s) =>
    }
  }

  /**
   * The reply bubble shows the whole transcript, except after a failed
   * download: then it shows the transcript as it stood before the record
   * whose clip failed, and that record's text, which the transcript already
   * holds, never reaches it.
   */
  lemma {:induction false} DisplayedFollowsTranscript(acc: Acc, lines: seq<string>,
                                                      decode: string -> Option<ChatResponse>,
                                                      download: string -> Option<Clip>)
    requires acc.displayed == acc.transcript
    ensures var p := Consume(acc, lines, decode, download);
      && (p.stop != Failed(DownloadFailure) ==> p.acc.displayed == p.acc.transcript)
      && (p.stop == Failed(DownloadFailure) ==>
            && p.read >= 1
            && p.acc.displayed == acc.transcript + Texts(lines[..p.read - 1], decode)
            && p.acc.displayed < p.acc.transcript)
    decreases |lines|
  {
    if lines != [] {
      var p := Consume(acc, lines, decode, download);
      match ReadLine(acc, lines[0], decode, download)
      case Continue(a) =>
        var rest := lines[1..];
        var q := Consume(a, rest, decode, download);
        DisplayedFollowsTranscript(a, rest, decode, download);
        if p.stop == Failed(DownloadFailure) {
          var prefix := lines[..p.read - 1];
          assert prefix == [lines[0]] + rest[..q.read - 1];
          assert prefix[0] == lines[0] && prefix[1..] == rest[..q.read - 1];
          assert Texts(prefix, decode) == TextOf(lines[0], decode) + Texts(rest[..q.read - 1], decode);
          AppendAssoc(acc.transcript, TextOf(lines[0], decode), Texts(rest[..q.read - 1], decode));
        }
      case Halt(a, s) =>
        assert lines[..0] == [];
        assert acc.transcript + Texts([], decode) == acc.transcript;
    }
  }

  /** A blank line is skipped: it neither changes what is produced nor ends the reply. */
  lemma {:induction false} BlankLineIsSkipped(acc: Acc, before: seq<string>, after: seq<string>,
                                              decode: string -> Option<ChatResponse>,
                                              download: string -> Option<Clip>)
    ensures var p := Consume(acc, before + [""] + after, decode, download);
      var q := Consume(acc, before + after, decode, download);
      p.acc == q.acc && p.stop == q.stop
    decreases |before|
  {
    if before == [] {
      assert before + [""] + after == [""] + after;
      assert ([""] + after)[1..] == after;
      assert before + after == after;
    } else {
      var rest := before[1..];
      assert (before + [""] + after)[0] == before[0] && (before + after)[0] == before[0];
      assert (before + [""] + after)[1..] == rest + [""] + after;
      assert (before + after)[1..] == rest + after;
      match ReadLine(acc, before[0], decode, download)
      case Continue(a) => BlankLineIsSkipped(a, rest, after, decode, download);
      case Halt(a, s) =>
    }
  }

  /** Once reading has stopped, whatever follows is never read. */
  lemma {:induction false} NothingAfterStop(acc: Acc, lines: seq<string>, more: seq<string>,
                                            decode: string -> Option<ChatResponse>,
                                            download: string -> Option<Clip>)
    requires Consume(acc, lines, decode, download).stop != Exhausted
    ensures Consume(acc, lines + more, decode, download) == Consume(acc, lines, decode, download)
    decreases |lines|
  {
    assert lines != [];
    assert (lines + more)[0] == lines[0];
    assert (lines + more)[1..] == lines[1..] + more;
    match ReadLine(acc, lines[0], decode, download)
    case Continue(a) => NothingAfterStop(a, lines[1..], more, decode, download);
    case Halt(a, s) =>
  }

  /** Reading lines that do not stop it, then more lines, is reading the more lines from there. */
  lemma {:induction false} ConsumeThen(acc: Acc, lines: seq<string>, more: seq<string>,
                                       decode: string -> Option<ChatResponse>,
                                       download: string -> Option<Clip>)
    requires Consume(acc, lines, decode, download).stop == Exhausted
    ensures var q := Consume(Consume(acc, lines, decode, download).acc, more, decode, download);
      Consume(acc, lines + more, decode, download) == q.(read := |lines| + q.read)
    decreases |lines|
  {
    if lines == [] {
      assert lines + more == more;
    } else {
      assert (lines + more)[0] == lines[0];
      assert (lines + more)[1..] == lines[1..] + more;
      match ReadLine(acc, lines[0], decode, download)
      case Continue(a) => ConsumeThen(a, lines[1..], more, decode, download);
      case Halt(a, s) =>
    }
  }

  /**
   * The first "finished" record ends the reply: its own content and every
   * later line add no text and trigger no download.
   */
  lemma FinishedEndsReply(acc: Acc, before: seq<string>, line: string, after: seq<string>,
                          decode: string -> Option<ChatResponse>, download: string -> Option<Clip>)
    requires Consume(acc, before, decode, download).stop == Exhausted
    requires line != "" && decode(line).Some? && decode(line).value.status == Some("finished")
    ensures Consume(acc, before + [line] + after, decode, download)
         == Progress(Consume(acc, before, decode, download).acc, Finished, |before| + 1)
  {
    var a := Consume(acc, before, decode, download).acc;
    assert before + [line] + after == before + ([line] + after);
    ConsumeThen(acc, before, [line] + after, decode, download);
    assert ([line] + after)[0] == line;
  }

  /** The whole reply: the request may be refused, and a body may break off mid-stream. */
  function Receive(reply: ReplyStream, decode: string -> Option<ChatResponse>,
                   download: string -> Option<Clip>): (p: Progress)
    // a reply never ends without a reason other than its lines running out cleanly
    ensures p.stop == Exhausted ==> reply.Stream? && !reply.truncated
    ensures p.stop == Finished ==> reply.Stream? && p.read >= 1
  {
    match reply
    case Rejected => Progress(Empty, Failed(TransportFailure), 0)
    case Stream(lines, truncated) =>
      var p := Consume(Empty, lines, decode, download);
      if p.stop == Exhausted && truncated then p.(stop := Failed(TransportFailure)) else p
  }

  /** Who a message bubble belongs to. */
  datatype Speaker = User | Character

  /** A message bubble on screen. */
  datatype MessageView = MessageView(speaker: Speaker, content: string)

  datatype Outcome = NoSession | Replied(stop: Stop)

  datatype Platform = WindowsPlayer | WindowsEditor | OSXPlayer | OSXEditor | OtherPlatform
  datatype KeyCode = Return | KeypadEnter | OtherKey
  datatype KeyDownEvent = KeyDownEvent(keyCode: KeyCode, ctrlKey: bool, commandKey: bool)

  /** `char.IsWhiteSpace`: the Unicode space separators, line and paragraph separators, and U+0009 to U+000D, U+0085. */
  predicate IsWhiteSpace(c: char)
  {
    || ('\U{0009}' <= c <= '\U{000D}') || c == '\U{0020}' || c == '\U{0085}' || c == '\U{00A0}'
    || c == '\U{1680}' || ('\U{2000}' <= c <= '\U{200A}') || c == '\U{2028}' || c == '\U{2029}'
    || c == '\U{202F}' || c == '\U{205F}' || c == '\U{3000}'
  }

  /** `string.IsNullOrWhiteSpace` on a non-null string: scan until a non-white-space character. */
  predicate IsNullOrWhiteSpace(s: string)
    ensures IsNullOrWhiteSpace(s) <==> forall i :: 0 <= i < |s| ==> IsWhiteSpace(s[i])
    decreases |s|
  {
    s == [] || (IsWhiteSpace(s[0]) && IsNullOrWhiteSpace(s[1..]))
  }

  /** Enter with the platform's modifier held: Ctrl on Windows, Command on macOS. */
  predicate IsSubmitChord(platform: Platform, evt: KeyDownEvent)
    // only Enter submits, and only on Windows or macOS
    ensures IsSubmitChord(platform, evt) ==> evt.keyCode != OtherKey && platform != OtherPlatform
    // each platform has its own modifier: Command does nothing on Windows, Ctrl nothing on macOS
    ensures (platform == WindowsPlayer || platform == WindowsEditor) ==>
              (IsSubmitChord(platform, evt) <==> evt.keyCode != OtherKey && evt.ctrlKey)
    ensures (platform == OSXPlayer || platform == OSXEditor) ==>
              (IsSubmitChord(platform, evt) <==> evt.keyCode != OtherKey && evt.commandKey)
  {
    var isWindows := platform == WindowsPlayer || platform == WindowsEditor;
    var isMac := platform == OSXPlayer || platform == OSXEditor;
    var isEnterKeyPressed := evt.keyCode == Return || evt.keyCode == KeypadEnter;
    var isModifierKeyPressed := (isWindows && evt.ctrlKey) || (isMac && evt.commandKey);
    isEnterKeyPressed && isModifierKeyPressed
  }

  /** What a key press in the message box does: the text to send, the new box text, and whether propagation stops. */
  datatype KeyDecision = KeyDecision(send: Option<string>, newInput: string, stopPropagation: bool)

  function DecideKeyDown(platform: Platform, evt: KeyDownEvent, input: string): (d: KeyDecision)
    // typed text is sent only on the chord and only if it has a visible character, and then the box is cleared
    ensures d.send.Some? ==> IsSubmitChord(platform, evt) && d.send.value == input && d.newInput == ""
    ensures d.send.Some? ==> exists i :: 0 <= i < |input| && !IsWhiteSpace(input[i])
    ensures IsSubmitChord(platform, evt) && (exists i :: 0 <= i < |input| && !IsWhiteSpace(input[i])) ==> d.send == Some(input)
    // the box keeps its text when nothing is sent
    ensures d.send.None? ==> d.newInput == input
    ensures d.stopPropagation <==> IsSubmitChord(platform, evt)
  {
    if IsSubmitChord(platform, evt) then
      if !IsNullOrWhiteSpace(input) then KeyDecision(Some(input), "", true)
      else KeyDecision(None, input, true)
    else KeyDecision(None, input, false)
  }

  /** The chat controller, with its session, its message views and its request logs. */
  class ChatController {
    var chatId: Option<string>
    var messages: seq<MessageView>
    /** Message bodies posted to the chat endpoint, in order. */
    var requests: seq<string>
    /** Clip ids requested from the voice endpoint, in order. */
    var downloads: seq<string>
    var messageInput: string
    const voicePlayController: VoicePlayController

    constructor (chatId: Option<string>, voicePlayController: VoicePlayController)
      ensures this.chatId == chatId && this.voicePlayController == voicePlayController
      ensures messages == [] && requests == [] && downloads == [] && messageInput == ""
    {
      this.chatId := chatId;
      this.voicePlayController := voicePlayController;
      messages := [];
      requests := [];
      downloads := [];
      messageInput := "";
    }

    /** DownloadWav: one request for the clip; None when it does not succeed. */
    method DownloadWav(wavId: string, download: string -> Option<Clip>) returns (clip: Option<Clip>)
      modifies this
      ensures clip == Fetch(download, wavId)
      ensures downloads == old(downloads) + [wavId]
      ensures chatId == old(chatId) && messages == old(messages) && requests == old(requests)
      ensures messageInput == old(messageInput)
    {
      downloads := downloads + [wavId];
      clip := download(WavUrl(wavId));
    }

    /**
     * One pass of the reading loop of SendChatMessage, in place: it does to
     * the views, the logs and the playback queue what `ReadLine` does to the
     * accumulated state, and says whether reading stops here.
     */
    method ReadReplyLine(lines: seq<string>, i: nat, responseContent: string, aiMessage: nat, ghost acc: Acc,
                         ghost shown: seq<MessageView>, ghost requested: seq<string>, ghost queued: seq<Clip>,
                         decode: string -> Option<ChatResponse>, download: string -> Option<Clip>)
      returns (content: string, halt: Option<Stop>, ghost next: Acc)
      requires voicePlayController.Valid()
      requires i < |lines|
      requires responseContent == acc.transcript
      requires aiMessage < |shown| && messages == shown[aiMessage := MessageView(Character, acc.displayed)]
      requires downloads == requested + acc.fetched
      requires voicePlayController.playWaitList == queued + acc.clips
      modifies this, voicePlayController
      ensures voicePlayController.Valid()
      ensures var p := Consume(acc, lines[i..], decode, download);
        if halt.Some? then p.acc == next && p.stop == halt.value && halt.value != Exhausted
        else var q := Consume(next, lines[i + 1..], decode, download); p.acc == q.acc && p.stop == q.stop
      ensures content == next.transcript
      ensures messages == shown[aiMessage := MessageView(Character, next.displayed)]
      ensures downloads == requested + next.fetched
      ensures voicePlayController.playWaitList == queued + next.clips
      ensures chatId == old(chatId) && messageInput == old(messageInput) && requests == old(requests)
      ensures voicePlayController.characterAudioSource == old(voicePlayController.characterAudioSource)
      ensures voicePlayController.audioStopTime == old(voicePlayController.audioStopTime)
      ensures voicePlayController.alreadyStopped == old(voicePlayController.alreadyStopped)
    {
      ConsumeUnfold(acc, lines, i, decode, download);
      var line := lines[i];
      content, halt, next := responseContent, None, acc;
      if line == "" {
        return;
      }
      var decoded := decode(line);
      if decoded.None? {
        halt := Some(Failed(DecodeFailure));
        return;
      }
      var chatResponse := decoded.value;
      if chatResponse.status == Some("finished") {
        halt := Some(Finished);
        return;
      }
      if !IsNullOrEmpty(chatResponse.content) {
        content := content + chatResponse.content.value;
        next := next.(transcript := content);
        if !IsNullOrEmpty(chatResponse.wav) {
          var clip := DownloadWav(chatResponse.wav.value, download);
          AppendAssoc(requested, next.fetched, [chatResponse.wav.value]);
          next := next.(fetched := next.fetched + [chatResponse.wav.value]);
          if clip.None? {
            halt := Some(Failed(DownloadFailure));
            return;
          }
          voicePlayController.AddAudioClipToWaitList(clip.value);
          AppendAssoc(queued, next.clips, [clip.value]);
          next := next.(clips := next.clips + [clip.value]);
        }
        messages := messages[aiMessage := MessageView(Character, content)];
        next := next.(displayed := content);
      }
    }

    /**
     * The reading loop of SendChatMessage over the lines of a reply body, in
     * place: it ends as `Consume` from an empty state says, with the reply
     * bubble, the download log and the playback queue updated accordingly.
     */
    method ReadReply(lines: seq<string>, aiMessage: nat, decode: string -> Option<ChatResponse>,
                     download: string -> Option<Clip>) returns (stop: Stop)
      requires voicePlayController.Valid()
      requires aiMessage < |messages| && messages[aiMessage] == MessageView(Character, "")
      modifies this, voicePlayController
      ensures voicePlayController.Valid()
      ensures var p := Consume(Empty, lines, decode, download);
        && stop == p.stop
        && messages == old(messages)[aiMessage := MessageView(Character, p.acc.displayed)]
        && downloads == old(downloads) + p.acc.fetched
        && voicePlayController.playWaitList == old(voicePlayController.playWaitList) + p.acc.clips
      ensures chatId == old(chatId) && messageInput == old(messageInput) && requests == old(requests)
      ensures voicePlayController.characterAudioSource == old(voicePlayController.characterAudioSource)
      ensures voicePlayController.audioStopTime == old(voicePlayController.audioStopTime)
      ensures voicePlayController.alreadyStopped == old(voicePlayController.alreadyStopped)
    {
      var responseContent := "";
      ghost var acc := Empty;
      ghost var goal := Consume(Empty, lines, decode, download);
      stop := Exhausted;
      var i := 0;
      while i < |lines|
        invariant 0 <= i <= |lines|
        invariant voicePlayController.Valid()
        invariant chatId == old(chatId) && messageInput == old(messageInput) && requests == old(requests)
        invariant voicePlayController.characterAudioSource == old(voicePlayController.characterAudioSource)
        invariant voicePlayController.audioStopTime == old(voicePlayController.audioStopTime)
        invariant voicePlayController.alreadyStopped == old(voicePlayController.alreadyStopped)
        invariant responseContent == acc.transcript
        invariant messages == old(messages)[aiMessage := MessageView(Character, acc.displayed)]
        invariant |messages| == |old(messages)|
        invariant downloads == old(downloads) + acc.fetched
        invariant voicePlayController.playWaitList == old(voicePlayController.playWaitList) + acc.clips
        invariant goal.acc == Consume(acc, lines[i..], decode, download).acc
        invariant goal.stop == Consume(acc, lines[i..], decode, download).stop
        decreases |lines| - i
      {
        var halt;
        ghost var next;
        responseContent, halt, next := ReadReplyLine(lines, i, responseContent, aiMessage, acc, old(messages),
                                                     old(downloads), old(voicePlayController.playWaitList), decode, download);
        acc := next;
        i := i + 1;
        if halt.Some? {
          stop := halt.value;
          break;
        }
      }
      if stop == Exhausted {
        assert lines[i..] == [];
      }
    }

    method SendChatMessage(message: string, reply: ReplyStream, decode: string -> Option<ChatResponse>,
                           download: string -> Option<Clip>) returns (outcome: Outcome)
      requires voicePlayController.Valid()
      modifies this, voicePlayController
      ensures voicePlayController.Valid()
      ensures chatId == old(chatId) && messageInput == old(messageInput)
      ensures voicePlayController.characterAudioSource == old(voicePlayController.characterAudioSource)
      ensures voicePlayController.audioStopTime == old(voicePlayController.audioStopTime)
      ensures voicePlayController.alreadyStopped == old(voicePlayController.alreadyStopped)
      // without a session nothing is shown, posted or downloaded
      ensures IsNullOrEmpty(chatId) ==>
        && outcome == NoSession
        && messages == old(messages) && requests == old(requests) && downloads == old(downloads)
        && voicePlayController.playWaitList == old(voicePlayController.playWaitList)
      // with one, two bubbles appear and the reply is read as Receive says
      ensures !IsNullOrEmpty(chatId) ==>
        var p := Receive(reply, decode, download);
        && outcome == Replied(p.stop)
        && messages == old(messages) + [MessageView(User, message), MessageView(Character, p.acc.displayed)]
        && requests == old(requests) + [message]
        && downloads == old(downloads) + p.acc.fetched
        && voicePlayController.playWaitList == old(voicePlayController.playWaitList) + p.acc.clips
    {
      if IsNullOrEmpty(chatId) {
        return NoSession;
      }
      messages := messages + [MessageView(User, message)];
      var aiMessage := |messages|;
      messages := messages + [MessageView(Character, "")];
      requests := requests + [message];
      if reply.Rejected? {
        return Replied(Failed(TransportFailure));
      }
      var stop := ReadReply(reply.lines, aiMessage, decode, download);
      if stop == Exhausted && reply.truncated {
        stop := Failed(TransportFailure);
      }
      outcome := Replied(stop);
    }

    /** The key handler of the message box; returns the message it hands to SendChatMessage, if any. */
    method OnMessageInputKeyDown(platform: Platform, evt: KeyDownEvent) returns (sent: Option<string>, stopPropagation: bool)
      modifies this
      ensures var d := DecideKeyDown(platform, evt, old(messageInput));
        sent == d.send && messageInput == d.newInput && stopPropagation == d.stopPropagation
      ensures chatId == old(chatId) && messages == old(messages) && requests == old(requests) && downloads == old(downloads)
    {
      sent, stopPropagation := None, false;
      var isWindows := platform == WindowsPlayer || platform == WindowsEditor;
      var isMac := platform == OSXPlayer || platform == OSXEditor;
      var isEnterKeyPressed := evt.keyCode == Return || evt.keyCode == KeypadEnter;
      var isModifierKeyPressed := (isWindows && evt.ctrlKey) || (isMac && evt.commandKey);
      if isEnterKeyPressed && isModifierKeyPressed {
        var message := messageInput;
        if !IsNullOrWhiteSpace(message) {
          sent := Some(message);
          messageInput := "";
        }
        stopPropagation := true;
      }
    }
  }
}
