# AICharacterClientSample: a verified model of the chat, voice-input and playback core

This project models the client-side decision logic of a Unity character chat app in Dafny. The app streams a character's reply line by line, downloads a voice clip for each spoken segment and queues it for playback. It also cuts microphone input into utterances and encodes each one as a WAV file for transcription.

- `wrappers.dfy`, module `Wrappers`: `Option`, standing for C# null references, and `string.IsNullOrEmpty`.
- `voice_play.dfy`, module `VoicePlay`: the playback wait list of `VoicePlayController`.
  - `Tick` specifies one frame of `Update`.
  - The class `VoicePlayController` keeps the same state in fields and is proved to follow `Tick`.
  - `Run` replays a whole trace of appends, frames and elapsed audio time. `RunIsFifo` proves that clips start in append order and that each starts at most once.
- `voice_input.dfy`, module `VoiceInput`: the utterance segmentation of `VoiceInputController`.
  - `Tick` specifies one frame of `Update`, together with the `EnabledRecord` setter, `StartRecord` and `StopRecord`.
  - The class `VoiceInputController` follows them in place and logs every capture it hands to transcription.
  - `Replay` and `SentCapturesInOrder` cover whole input sequences.
- `wav.dfy`, module `Wav`: `WavUtility.FromAudioClip`.
  - A `MemoryWriter` class gives the BinaryWriter-over-MemoryStream semantics, including seeking back and overwriting.
  - `SamplesToBytes` copies the samples to bytes with a loop.
  - `FromAudioClip` is proved to produce `WavFile`, the 16-bit PCM RIFF/WAVE layout. The lemmas read each header field back.
- `chat.dfy`, module `Chat`:
  - `Consume` is the reading loop of `SendChatMessage`, written as a fold over reply lines.
  - The class `ChatController` runs that loop in place. It updates the reply bubble, the download log and the playback queue, and is proved to end as `Receive` says.
  - `DecideKeyDown` and `OnMessageInputKeyDown` model the Ctrl/Command+Enter submit decision.

Inputs that the source reads from the engine or the network are parameters of the model:
- the frame clock (`Time.time`) and the wall clock (`DateTime.Now`), both in seconds as `real`;
- the current microphone volume;
- whether a microphone exists (`Config.hasDevice`);
- the reply, as a sequence of lines that may be refused (`Rejected`) or cut off (`truncated`);
- the JSON decoder (`decode`), which may fail;
- the clip download by URL (`download`), which may fail;
- the running platform and the key event.

Some consequences of the code that are easy to miss:
- A failed clip download throws out of the reading loop. That record's text joins `responseContent` but never reaches the reply bubble, and no further line is read. `DisplayedFollowsTranscript` and `ConsumePairsClips` state this.
- An utterance ends when the capture is strictly older than `maxRecordTime`, and the check only runs once per frame. A sent capture can therefore be longer than `maxRecordTime`, because the age test is strict and runs once per frame. The silence test is likewise strict (`>`). `SendsExactlyOnUtteranceEnd` and `WindowBoundedAfterTick` state the code's rule. The bound holds only for the window that is still open at the end of a frame.
- A missing microphone does not turn recording off: `EnabledRecord` stays true, `StartRecord` leaves no capture, and `Update` then does nothing.

## Model

| member | source | states |
|---|---|---|
| VoicePlay.Tick | Assets/Chat/VoicePlayController.cs:28-71 | the wait list loses exactly its head when the source is silent and the list is non-empty, and is otherwise unchanged; a playing source keeps its clip and position; consistency is preserved |
| VoicePlay.IdleAndStoppedIsFixpoint | Assets/Chat/VoicePlayController.cs:32-35 | an empty list with the stopped flag set is left entirely unchanged |
| VoicePlay.SilentAndEmptyIsFixpoint | Assets/Chat/VoicePlayController.cs:55-58 | a silent source with an empty list is left entirely unchanged |
| VoicePlay.StartsHead | Assets/Chat/VoicePlayController.cs:59-69 | a silent source with clips waiting plays exactly the head from `trimStart`, with stop time `length - trimEnd`, clears the stopped flag and keeps the rest in order |
| VoicePlay.StopsOnlyAtStopTime | Assets/Chat/VoicePlayController.cs:40-50 | a playing source keeps playing, with nothing changed, if and only if its position is before the stop time; on stop the flag becomes true exactly when the list is empty |
| VoicePlay.NextClipStartsOnLaterFrame | Assets/Chat/VoicePlayController.cs:44-61 | the frame that stops a clip starts nothing, and the following frame starts the next clip |
| VoicePlay.EmptyWindowStopsOnNextFrame | Assets/Chat/VoicePlayController.cs:40-68 | when `trimStart` is at or past the stop time, a started clip is stopped by the next frame whatever time elapsed |
| VoicePlay.RunIsFifo | Assets/Chat/VoicePlayController.cs:23-62 | over any trace, the clips started followed by the clips still waiting are exactly the clips waiting at the outset followed by those appended: append order, each at most once |
| VoicePlay.RunKeepsConsistent | Assets/Chat/VoicePlayController.cs:28-71 | every state a trace reaches from a consistent state is consistent |
| VoicePlay.VoicePlayController.constructor | Assets/Chat/VoicePlayController.cs:11-21 | an empty list, a silent source and the flag cleared |
| VoicePlay.VoicePlayController.AddAudioClipToWaitList | Assets/Chat/VoicePlayController.cs:23-26 | appends the clip at the tail and changes nothing else |
| VoicePlay.VoicePlayController.Update | Assets/Chat/VoicePlayController.cs:28-71 | the new state is `Tick` of the old one; the clip dequeued, if any, is added to the played history, so history plus list equals all clips appended |
| VoiceInput.RecordStarted | Assets/Chat/VoiceInputController.cs:143-149 | start time becomes now, detection is cleared, `lastActiveTime` becomes 0, and there is a capture exactly when a device exists |
| VoiceInput.RecordStopped | Assets/Chat/VoiceInputController.cs:151-157 | no capture, no start time, detection cleared, nothing else changed |
| VoiceInput.EnabledRecordSet | Assets/Chat/VoiceInputController.cs:33-52 | the flag takes the assigned value and consistency is preserved |
| VoiceInput.SetEnabledRecordTransitions | Assets/Chat/VoiceInputController.cs:33-52 | assigning the current value changes nothing; false to true starts recording; true to false stops it |
| VoiceInput.Tick | Assets/Chat/VoiceInputController.cs:76-108 | a frame sends at most one capture, and only the one open at its start; the enabled flag and consistency are preserved |
| VoiceInput.IdleTickChangesNothing | Assets/Chat/VoiceInputController.cs:78 | disabled or without a capture, a frame changes nothing and sends nothing |
| VoiceInput.SendsExactlyOnUtteranceEnd | Assets/Chat/VoiceInputController.cs:92-98 | a capture is sent if and only if voice was being detected, this frame is below the threshold, and the silence or the capture age is over its limit; recording then restarts with detection cleared |
| VoiceInput.QuietFrameChangesNothing | Assets/Chat/VoiceInputController.cs:83-107 | a quiet frame that ends no utterance, with the capture within `maxRecordTime`, leaves the state unchanged and sends nothing |
| VoiceInput.LoudFrameDetectsVoice | Assets/Chat/VoiceInputController.cs:83-91 | a loud frame sends nothing and sets detection and `lastActiveTime` to now, unless the window rolls over |
| VoiceInput.RolloverDoesNotSend | Assets/Chat/VoiceInputController.cs:101-107 | a capture over the maximum age is restarted without being sent, even while the voice is loud |
| VoiceInput.WindowBoundedAfterTick | Assets/Chat/VoiceInputController.cs:100-107 | after any active frame, the open capture is no older than `maxRecordTime` |
| VoiceInput.Replay | Assets/Chat/VoiceInputController.cs:33-108 | every state reached by setter calls and frames from a consistent state is consistent |
| VoiceInput.SentCapturesInOrder | Assets/Chat/VoiceInputController.cs:92-149 | when the wall clock increases, the captures sent are in strictly increasing start order, so none is sent twice |
| VoiceInput.VoiceInputController.constructor | Assets/Chat/VoiceInputController.cs:12-31 | recording disabled, no capture, no start time, detection cleared |
| VoiceInput.VoiceInputController.SetEnabledRecord | Assets/Chat/VoiceInputController.cs:33-52 | the new state is `EnabledRecordSet` of the old one; nothing is sent |
| VoiceInput.VoiceInputController.Update | Assets/Chat/VoiceInputController.cs:76-108 | the new state is `Tick` of the old one, and the sent log grows by exactly what `Tick` sends |
| VoiceInput.VoiceInputController.StopCurrentRecording | Assets/Chat/VoiceInputController.cs:130-141 | hands over the open capture, if any, and changes no recording state |
| VoiceInput.VoiceInputController.StartRecord | Assets/Chat/VoiceInputController.cs:143-149 | the new state is `RecordStarted` of the old one |
| VoiceInput.VoiceInputController.StopRecord | Assets/Chat/VoiceInputController.cs:151-157 | the new state is `RecordStopped` of the old one |
| Wav.LE16RoundTrip | Assets/Chat/VoiceInputController.cs:175-180 | a 16-bit field reads back as the low 16 bits of the value written |
| Wav.LE32RoundTrip | Assets/Chat/VoiceInputController.cs:170-182 | a 32-bit field reads back as the low 32 bits of the value written |
| Wav.SampleRoundTrip | Assets/Chat/VoiceInputController.cs:187-193 | every 16-bit sample reads back unchanged as a signed little-endian word |
| Wav.TagConstants | Assets/Chat/VoiceInputController.cs:170-181 | the four integer constants are written as the ASCII tags "RIFF", "WAVE", "fmt " and "data" |
| Wav.FormatFieldsRead | Assets/Chat/VoiceInputController.cs:175-180 | AudioFormat 1, NumChannels, SampleRate, ByteRate = rate × channels × 2, BlockAlign = channels × 2 and BitsPerSample 16 read back at their offsets |
| Wav.WavLength | Assets/Chat/VoiceInputController.cs:170-194 | the file is a 44-byte header plus two bytes per sample |
| Wav.SizeFields | Assets/Chat/VoiceInputController.cs:196-200 | ChunkSize at offset 4 is the length minus 8 and Subchunk2Size at offset 40 is the length minus 44, both modulo 2^32 |
| Wav.HeaderFields | Assets/Chat/VoiceInputController.cs:170-182 | the four tags at offsets 0, 8, 12 and 36, and every fixed and derived header field at its offset |
| Wav.SamplesReadBack | Assets/Chat/VoiceInputController.cs:184-194 | sample i reads back from offset 44 + 2i |
| Wav.OverwriteContents | Assets/Chat/VoiceInputController.cs:197-200 | a write at a position leaves the new bytes there, the old bytes elsewhere, and zeros in a gap |
| Wav.OverwriteAtEnd | Assets/Chat/VoiceInputController.cs:170-194 | writing at the end of the stream appends |
| Wav.MemoryWriter.constructor | Assets/Chat/VoiceInputController.cs:167-168 | an empty stream at position 0 |
| Wav.MemoryWriter.Write | Assets/Chat/VoiceInputController.cs:194 | the buffer is overwritten at the position and the position advances; at the end of the stream this appends |
| Wav.MemoryWriter.WriteInt32 | Assets/Chat/VoiceInputController.cs:170-174 | writes the four little-endian bytes of the value's low 32 bits |
| Wav.MemoryWriter.WriteUInt16 | Assets/Chat/VoiceInputController.cs:175-180 | writes the two little-endian bytes of the value's low 16 bits |
| Wav.MemoryWriter.Seek | Assets/Chat/VoiceInputController.cs:197-199 | moves the position and leaves the bytes unchanged |
| Wav.SamplesToBytes | Assets/Chat/VoiceInputController.cs:187-193 | the byte array holds every sample as two little-endian bytes, in order |
| Wav.WriteFormatFields | Assets/Chat/VoiceInputController.cs:175-180 | appends the six "fmt " body fields |
| Wav.WriteFormatChunk | Assets/Chat/VoiceInputController.cs:172-181 | appends bytes 8 to 40 of the header |
| Wav.WriteHeader | Assets/Chat/VoiceInputController.cs:170-182 | writes the 44-byte header with both size fields at zero |
| Wav.PatchChunkSize | Assets/Chat/VoiceInputController.cs:197-198 | rewriting offset 4 changes ChunkSize and nothing else |
| Wav.PatchDataSize | Assets/Chat/VoiceInputController.cs:199-200 | rewriting offset 40 changes Subchunk2Size and nothing else |
| Wav.PatchSizeFields | Assets/Chat/VoiceInputController.cs:196-200 | both size fields end up holding the final lengths |
| Wav.FromAudioClip | Assets/Chat/VoiceInputController.cs:165-206 | the bytes returned are exactly `WavFile`, the layout whose fields the lemmas above read back |
| Chat.ReadLine | Assets/Chat/ChatController.cs:125-150 | a line adds exactly its own text to the transcript and its own clip id to the requests; a clip is enqueued only if its download succeeded; a stop always has a reason |
| Chat.Consume | Assets/Chat/ChatController.cs:125-152 | reading runs to the last line unless a line stops it, and that line is the last one read |
| Chat.ConsumeAppendsInOrder | Assets/Chat/ChatController.cs:139-147 | the transcript only grows, by the text of the lines read in line order, and the requested clip ids are those of the lines read in line order |
| Chat.ReadLinePairsClips | Assets/Chat/ChatController.cs:143-147 | one line keeps the requested ids and the enqueued clips paired, except for a failed download |
| Chat.ConsumePairsClips | Assets/Chat/ChatController.cs:143-147 | the queue receives exactly the downloaded clips of the requested ids, in order and at most one per record; a failed download leaves only the last id unpaired |
| Chat.DisplayedFollowsTranscript | Assets/Chat/ChatController.cs:139-148 | the reply bubble shows the whole transcript, except after a failed download, when it shows exactly the transcript from before the failing record, which is a proper prefix of the final transcript |
| Chat.BlankLineIsSkipped | Assets/Chat/ChatController.cs:127 | inserting a blank line anywhere changes neither the result nor the reason for stopping |
| Chat.NothingAfterStop | Assets/Chat/ChatController.cs:134-137 | once reading has stopped, lines after it have no effect |
| Chat.ConsumeThen | Assets/Chat/ChatController.cs:125-152 | reading lines that do not stop, then more lines, equals reading the more lines from the intermediate state |
| Chat.FinishedEndsReply | Assets/Chat/ChatController.cs:134-137 | the first "finished" record adds no text and no download, and ends the reply with everything after it unread |
| Chat.Receive | Assets/Chat/ChatController.cs:120-125 | a refused or cut-off reply never ends as if it had run out cleanly; a "finished" stop comes from a body that was read |
| Chat.IsNullOrWhiteSpace | Assets/Chat/ChatController.cs:217 | holds exactly when every character is .NET white space |
| Chat.IsSubmitChord | Assets/Chat/ChatController.cs:197-212 | Enter with Ctrl on Windows or with Command on macOS, and nothing on other platforms |
| Chat.DecideKeyDown | Assets/Chat/ChatController.cs:212-223 | the box text is sent and cleared exactly on the chord with a non-white-space character; otherwise the box keeps its text; propagation stops exactly on the chord |
| Chat.ChatController.constructor | Assets/Chat/ChatController.cs:18-25 | the session id and playback controller given, with no messages, requests or downloads |
| Chat.ChatController.DownloadWav | Assets/Chat/ChatController.cs:29-45 | requests the clip's URL once and returns the download's result, None on failure |
| Chat.ChatController.ReadReplyLine | Assets/Chat/ChatController.cs:127-150 | one pass of the loop does to the bubble, the logs and the queue what `ReadLine` does, and tells whether reading stops |
| Chat.ChatController.ReadReply | Assets/Chat/ChatController.cs:125-152 | the loop ends as `Consume` from an empty state says, with bubble, download log and queue to match |
| Chat.ChatController.SendChatMessage | Assets/Chat/ChatController.cs:91-152 | without a session nothing is shown, posted or downloaded; with one, a user bubble and a reply bubble appear, the message is posted, and the reply is read as `Receive` says |
| Chat.ChatController.OnMessageInputKeyDown | Assets/Chat/ChatController.cs:195-225 | the message sent, the new box text and propagation are as `DecideKeyDown` decides |

## Left out

- HTTP transport is not modelled: `StartChat`, the request and stream setup of `SendChatMessage`, and `UnityWebRequest` in `DownloadWav`. A reply is a sequence of lines that may be refused or cut off, a download is a function from URL to an optional clip, and the session id is a constructor argument.
- `SendChatMessageWithVoice` is network I/O and is left out. `StopCurrentRecording` appends the capture to a log of sent utterances instead of posting it.
- JSON decoding is a parameter that may fail, and the request body is logged as the message itself.
- `ReadLinesAsync` returns null only at the end of the stream, so reply lines are plain strings. A blank line is the empty string.
- Thread switching (`UniTask.SwitchToMainThread`/`SwitchToThreadPool`, `async`, `Forget`) is not modelled. Every operation runs to completion as one sequential call, so `SendChatMessage` is not interleaved with playback frames.
- `OnMessageInputKeyDown` returns the message it would hand to `SendChatMessage`; it does not start the send.
- `ChatMessageView` (UI construction and scrolling) is not part of this model. A message bubble is a speaker and a text.
- `GetCurrentVolume` (RMS over 1024 samples and `Mathf.Sqrt`) is floating-point numerics; the volume is an input of `Update`.
- The `(short)(sample * 32767f)` quantisation is floating point; `FromAudioClip` takes 16-bit samples.
- The engine's microphone, `AudioSource`, `Time.time` and `DateTime.Now` are abstract state and inputs. The source advances its position only through `AdvanceAudio`/`Elapse`.
- The engine's own stop of a non-looping clip when playback reaches the clip's end is not modelled. With `trimEnd = 0`, the field's default (Assets/Chat/VoicePlayController.cs:18), the stop time equals the clip length, so the engine normally stops the source before the `time >= _audioStopTime` branch runs, and `_alreadyStopped` is then never set. The same happens when one frame lasts longer than `trimEnd`. In those cases the stop path that `StopsOnlyAtStopTime` and `NextClipStartsOnLaterFrame` describe is skipped: the next frame finds the source not playing and starts the next clip at once, or, with an empty list, returns from the not-playing branch with `_alreadyStopped` still false.
- `Start` (device enumeration and choosing the first device) is not modelled; `Config.hasDevice` says whether `Microphone.Start` yields a capture. `Debug.Log` output is not modelled.
- Floating-point time and volume values are modelled as mathematical reals, without rounding.
