/**
 * The call session: the page's mutable globals as the fields of one object,
 * the connection handles it owns, and the operations that start a call, react
 * to control-channel messages, watch for silence and tear the call down.
 */
module CallSession {
  import opened Wrappers
  import opened Usage
  import opened CostEstimate
  import opened Silence
  import opened CallSettings
  import opened Protocol

  /** The media connection; only whether it was closed is observed here. */
  class PeerConnection {
    var closed: bool

    constructor ()
      ensures !closed
    {
      closed := false;
    }

    method Close()
      modifies this
      ensures closed
    {
      closed := true;
    }
  }

  datatype ChannelState = Connecting | Open | Closed

  /** The `oai-events` data channel and everything sent on it. */
  class DataChannel {
    var state: ChannelState
    var sent: seq<OutEvent>

    constructor ()
      ensures state == Connecting && sent == []
    {
      state := Connecting;
      sent := [];
    }

    method Send(e: OutEvent)
      requires state == Open
      modifies this
      ensures state == Open && sent == old(sent) + [e]
    {
      sent := sent + [e];
    }

    method Close()
      modifies this
      ensures state == Closed && sent == old(sent)
    {
      state := Closed;
    }
  }

  /** The Web Audio context that hosts the analyser. */
  class AudioContext {
    var closed: bool

    constructor ()
      ensures !closed
    {
      closed := false;
    }

    method Close()
      modifies this
      ensures closed
    {
      closed := true;
    }
  }

  datatype TrackKind = AudioKind | VideoKind

  /** A media track: its kind, whether it is enabled (unmuted), and whether it is still live. */
  datatype Track = Track(kind: TrackKind, enabled: bool, live: bool)

  /** `track.enabled = false` applied to the audio tracks only (`getAudioTracks()`). */
  function Muted(t: Track): Track {
    if t.kind == AudioKind then t.(enabled := false) else t
  }

  /** The local capture stream. */
  class MediaStream {
    const tracks: array<Track>

    /** The stream `getUserMedia({audio})` returns: live, enabled audio tracks. */
    constructor (audioTracks: nat)
      ensures fresh(tracks) && tracks.Length == audioTracks
      ensures forall i :: 0 <= i < tracks.Length ==> tracks[i] == Track(AudioKind, true, true)
    {
      tracks := new Track[audioTracks](_ => Track(AudioKind, true, true));
    }

    /** `getAudioTracks().forEach(track => track.enabled = false)`. */
    method MuteAudio()
      modifies tracks
      ensures forall i :: 0 <= i < tracks.Length ==> tracks[i] == Muted(old(tracks[i]))
    {
      var i := 0;
      while i < tracks.Length
        invariant 0 <= i <= tracks.Length
        invariant forall j :: 0 <= j < i ==> tracks[j] == Muted(old(tracks[j]))
        invariant forall j :: i <= j < tracks.Length ==> tracks[j] == old(tracks[j])
      {
        tracks[i] := Muted(tracks[i]);
        i := i + 1;
      }
    }

    /** `getTracks().forEach(track => track.stop())`. */
    method StopTracks()
      modifies tracks
      ensures forall i :: 0 <= i < tracks.Length ==> tracks[i] == old(tracks[i]).(live := false)
    {
      var i := 0;
      while i < tracks.Length
        invariant 0 <= i <= tracks.Length
        invariant forall j :: 0 <= j < i ==> tracks[j] == old(tracks[j]).(live := false)
        invariant forall j :: i <= j < tracks.Length ==> tracks[j] == old(tracks[j])
      {
        tracks[i] := tracks[i].(live := false);
        i := i + 1;
      }
    }
  }

  /** Who a chat line is shown for. */
  datatype Role = Ai | User

  /** The chat lines the session appends, as records rather than rendered text. */
  datatype Text =
    | EndingNotice
    | SettingsUpdatedNotice
    | Transcript(text: string)
    | UsageSummary(totalTokens: int, inputTokens: int, outputTokens: int)
    | CostSummary(usd: real, jpy: real)

  datatype Message = Message(role: Role, text: Text)

  /** The two lines `stopCall` appends: the token totals, then the cost in dollars and yen. */
  function StopSummary(usage: Counters, modelId: string, exchangeRate: real): seq<Message> {
    var usd := CalculateCost(Some(AsBlock(usage)), modelId);
    [Message(Ai, UsageSummary(usage.totalTokens, usage.inputTokens, usage.outputTokens)),
     Message(Ai, CostSummary(usd, usd * exchangeRate))]
  }

  /** The transcript line shown for an optional transcript, if any. */
  function TranscriptLine(role: Role, t: Option<string>): (ms: seq<Message>)
    ensures |ms| <= 1
    ensures |ms| == 1 <==> t.Some? && t.value != ""
    ensures |ms| == 1 ==> ms[0] == Message(role, Transcript(t.value))
  {
    if ShownTranscript(t).Some? then [Message(role, Transcript(t.value))] else []
  }

  /** How `startCall`'s negotiation ends: which step throws, if any. */
  datatype StartOutcome =
    | CredentialRefused   // `POST /session` not ok: nothing is created
    | MediaDenied         // `getUserMedia` fails after the connection and channel exist
    | AnswerFailed        // the offer/answer exchange fails after capture started
    | Connected           // negotiation completes; the channel opens later

  /** A snapshot of every field of a session. */
  datatype State = State(
    peerConnection: PeerConnection?,
    dataChannel: DataChannel?,
    isCallActive: bool,
    localStream: MediaStream?,
    audioContext: AudioContext?,
    hasAnalyser: bool,
    silenceStart: Option<int>,
    aiResponseDone: bool,
    shouldDisconnect: bool,
    settings: Settings,
    usage: Counters,
    exchangeRate: real,
    messages: seq<Message>)

  /** The state `endCall` leaves: inactive, every handle dropped, nothing else touched. */
  ghost function AfterEnd(s: State): State {
    s.(isCallActive := false, peerConnection := null, localStream := null, dataChannel := null, audioContext := null)
  }

  /** The state `stopCall` leaves: the two summary lines, then `endCall`. */
  ghost function AfterStop(s: State): State {
    AfterEnd(s.(messages := s.messages + StopSummary(s.usage, s.settings.model, s.exchangeRate)))
  }

  /** The resets at the top of `startCall`. */
  ghost function AfterReset(s: State): State {
    s.(usage := Zero, shouldDisconnect := false, aiResponseDone := false, silenceStart := None)
  }

  /** The handles were closed: connection, channel and context closed, every captured track stopped. */
  twostate predicate Released(pc: PeerConnection?, dc: DataChannel?, ac: AudioContext?, ls: MediaStream?)
    reads pc, dc, ac, if ls != null then {ls.tracks} else {}
  {
    && (pc != null ==> pc.closed)
    && (dc != null ==> dc.state == Closed && dc.sent == old(dc.sent))
    && (ac != null ==> ac.closed)
    && (ls != null ==> forall i :: 0 <= i < ls.tracks.Length ==> ls.tracks[i] == old(ls.tracks[i]).(live := false))
  }

  class Session {
    var peerConnection: PeerConnection?
    var dataChannel: DataChannel?
    var isCallActive: bool
    var localStream: MediaStream?
    var audioContext: AudioContext?
    /** `analyser` is set by the audio setup and never cleared. */
    var hasAnalyser: bool
    var silenceStart: Option<int>
    var aiResponseDone: bool
    /**
     * An implicit global in the source, first assigned by `startCall`; every
     * read comes after that assignment, so it starts out false here.
     */
    var shouldDisconnect: bool
    var settings: Settings
    var usage: Counters
    var exchangeRate: real
    var messages: seq<Message>

    ghost function View(): State
      reads this
    {
      State(peerConnection, dataChannel, isCallActive, localStream, audioContext, hasAnalyser,
            silenceStart, aiResponseDone, shouldDisconnect, settings, usage, exchangeRate, messages)
    }

    /** The objects the session's handles own. */
    ghost function Handles(): set<object>
      reads this
    {
      (if peerConnection != null then {peerConnection} else {})
      + (if dataChannel != null then {dataChannel} else {})
      + (if audioContext != null then {audioContext} else {})
      + (if localStream != null then {localStream.tracks} else {})
    }

    /** The call is over and no handle is held. */
    ghost predicate TornDown()
      reads this
    {
      !isCallActive && peerConnection == null && dataChannel == null && localStream == null && audioContext == null
    }

    /**
     * A silence window is open only while a disconnect is pending. The
     * constructor and the resets establish it and the operations that touch
     * the window or the flag keep it. `HandleMessage` draws the consequence:
     * the `end_call` that arms the termination sequence finds the window
     * closed, the start every trace lemma of `Silence` assumes.
     */
    ghost predicate WindowOnlyWhenPending()
      reads this
    {
      !shouldDisconnect ==> silenceStart == None
    }

    /** The guard of `checkSilence`: active call, an analyser, and a pending disconnect. */
    predicate Armed()
      reads this
    {
      isCallActive && hasAnalyser && shouldDisconnect
    }

    /** The page's initial state. */
    constructor ()
      ensures View() == State(null, null, false, null, null, false, None, false, false, Defaults, Zero, 150.0, [])
      ensures WindowOnlyWhenPending()
    {
      peerConnection, dataChannel, isCallActive, localStream, audioContext := null, null, false, null, null;
      hasAnalyser, silenceStart, aiResponseDone, shouldDisconnect := false, None, false, false;
      settings, usage, exchangeRate, messages := Defaults, Zero, 150.0, [];
    }

    /** `loadSettings`: the server's document (`None` when the fetch failed) merged over the current settings. */
    method LoadSettings(response: Option<Document>)
      modifies this
      ensures View() == old(View()).(settings := if response.Some? then Merge(old(settings), response.value) else old(settings))
    {
      if response.Some? {
        settings := Merge(settings, response.value);
      }
    }

    /** `fetchExchangeRate`: a reported rate replaces the current one unless it is 0 (falsy). */
    method ApplyExchangeRate(rate: Option<real>)
      modifies this
      ensures View() == old(View()).(exchangeRate := if rate.Some? && rate.value != 0.0 then rate.value else old(exchangeRate))
    {
      if rate.Some? && rate.value != 0.0 {
        exchangeRate := rate.value;
      }
    }

    /** `updateSession`: sends `session.update` for the current settings and notes it in the chat. */
    method UpdateSession()
      requires dataChannel != null && dataChannel.state == Open
      modifies this, dataChannel
      ensures View() == old(View()).(messages := old(messages) + [Message(Ai, SettingsUpdatedNotice)])
      ensures dataChannel.state == Open && dataChannel.sent == old(dataChannel.sent) + [SessionUpdateEvent(settings)]
    {
      dataChannel.Send(SessionUpdateEvent(settings));
      messages := messages + [Message(Ai, SettingsUpdatedNotice)];
    }

    /** The 500 ms timer `updateSession` arms: asks for the greeting if the channel is still open. */
    method GreetingTimerFires()
      modifies dataChannel
      ensures dataChannel != null && old(dataChannel.state) == Open ==>
                dataChannel.state == Open && dataChannel.sent == old(dataChannel.sent) + [GreetingRequest(settings)]
      ensures dataChannel != null && old(dataChannel.state) != Open ==> unchanged(dataChannel)
    {
      if dataChannel != null && dataChannel.state == Open {
        dataChannel.Send(GreetingRequest(settings));
      }
    }

    /**
     * A click on the save button, up to the point where both listeners wait
     * for their `POST /settings`. Two listeners are registered for it and run
     * in order: the one near the top of the page, which also copies the
     * greeting field (`None` when the page has no such field) and posts the
     * settings, and the later one, which copies the four other fields again
     * and posts again. `posted` is the two request bodies. What the later
     * listener does once its request completes is `SaveCompleted`; other
     * events may run in between.
     */
    method SaveSettings(instructions: string, greeting: Option<string>, voice: string, microphoneId: string, model: string)
      returns (posted: seq<Document>)
      modifies this
      ensures var s := old(settings).(instructions := instructions, voice := voice, microphoneId := microphoneId, model := model,
                                      initialGreeting := if greeting.Some? then greeting.value else old(settings.initialGreeting));
              && View() == old(View()).(settings := s)
              && posted == [ToDocument(s), ToDocument(s)]
    {
      // The first listener.
      settings := settings.(instructions := instructions, voice := voice, microphoneId := microphoneId, model := model);
      if greeting.Some? {
        settings := settings.(initialGreeting := greeting.value);
      }
      posted := [ToDocument(settings)];
      // The second listener, up to its `await saveSettings()`.
      settings := settings.(instructions := instructions, voice := voice, microphoneId := microphoneId, model := model);
      posted := posted + [ToDocument(settings)];
    }

    /**
     * The later save listener after its `POST /settings` completes: during an
     * active call on an open channel, judged now rather than at the click,
     * the current settings are re-sent.
     */
    method SaveCompleted()
      modifies this, dataChannel
      ensures var resend := old(isCallActive && dataChannel != null && dataChannel.state == Open);
              && (resend ==>
                    && View() == old(View()).(messages := old(messages) + [Message(Ai, SettingsUpdatedNotice)])
                    && dataChannel.state == Open
                    && dataChannel.sent == old(dataChannel.sent) + [SessionUpdateEvent(settings)])
              && (!resend ==> View() == old(View()) && (dataChannel != null ==> unchanged(dataChannel)))
    {
      if isCallActive && dataChannel != null && dataChannel.state == Open {
        UpdateSession();
      }
    }

    /** `endCall`: marks the call inactive and closes and drops every handle that is held. */
    method EndCall()
      modifies this, Handles()
      ensures View() == AfterEnd(old(View()))
      ensures TornDown()
      ensures Released(old(peerConnection), old(dataChannel), old(audioContext), old(localStream))
      ensures old(TornDown()) ==> unchanged(this)
      ensures old(WindowOnlyWhenPending()) ==> WindowOnlyWhenPending()
    {
      isCallActive := false;
      if peerConnection != null {
        peerConnection.Close();
        peerConnection := null;
      }
      if localStream != null {
        localStream.StopTracks();
        localStream := null;
      }
      if dataChannel != null {
        dataChannel.Close();
        dataChannel := null;
      }
      if audioContext != null {
        audioContext.Close();
        audioContext := null;
      }
    }

    /** `stopCall`: appends the usage and cost summary, then runs `endCall`. */
    method StopCall()
      modifies this, Handles()
      ensures View() == AfterStop(old(View()))
      ensures messages == old(messages) + StopSummary(old(usage), old(settings.model), old(exchangeRate))
      ensures TornDown()
      ensures Released(old(peerConnection), old(dataChannel), old(audioContext), old(localStream))
      ensures old(WindowOnlyWhenPending()) ==> WindowOnlyWhenPending()
    {
      var costUsd := CalculateCost(Some(AsBlock(usage)), settings.model);
      var costJpy := costUsd * exchangeRate;
      var usageLine := Message(Ai, UsageSummary(usage.totalTokens, usage.inputTokens, usage.outputTokens));
      var costLine := Message(Ai, CostSummary(costUsd, costJpy));
      messages := messages + [usageLine];
      messages := messages + [costLine];
      ghost var summary := StopSummary(usage, settings.model, exchangeRate);
      assert summary[1].text.usd == costUsd;
      assert summary[0] == usageLine && summary[1] == costLine;
      assert messages == old(messages) + [usageLine, costLine];
      EndCall();
    }

    /** The handles a failed start created are closed, and its capture tracks stopped. */
    ghost predicate CreatedReleased(pc: PeerConnection?, dc: DataChannel?, ls: MediaStream?)
      reads pc, dc, if ls != null then {ls.tracks} else {}
    {
      && (pc != null ==> pc.closed)
      && (dc != null ==> dc.state == Closed && dc.sent == [])
      && (ls != null ==> forall i :: 0 <= i < ls.tracks.Length ==> ls.tracks[i] == Track(AudioKind, true, false))
    }

    /**
     * `startCall`: resets the usage counters and the disconnect state, then
     * negotiates. A failing step lands in the catch block, which runs `endCall`
     * on whatever the globals hold by then. `pc`, `dc` and `ls` are the
     * connection, channel and capture stream the negotiation created (null
     * for a step it did not reach). A handle the start overwrites is dropped
     * without being closed, as the assignments in the source do.
     */
    method StartCall(outcome: StartOutcome, audioTracks: nat)
      returns (ghost pc: PeerConnection?, ghost dc: DataChannel?, ghost ls: MediaStream?)
      modifies this, Handles()
      ensures WindowOnlyWhenPending()
      ensures (pc == null) == (outcome == CredentialRefused) && (dc == null) == (outcome == CredentialRefused)
      ensures (ls == null) == (outcome == CredentialRefused || outcome == MediaDenied)
      ensures pc != null ==> fresh(pc)
      ensures dc != null ==> fresh(dc) && dc.sent == []
      ensures ls != null ==> fresh(ls) && fresh(ls.tracks) && ls.tracks.Length == audioTracks
      ensures outcome != Connected ==>
                && View() == AfterEnd(AfterReset(old(View())))
                && TornDown()
                && CreatedReleased(pc, dc, ls)
      ensures outcome == CredentialRefused ==> Released(old(peerConnection), old(dataChannel), old(audioContext), old(localStream))
      ensures outcome == MediaDenied ==> Released(null, null, old(audioContext), old(localStream))
      ensures outcome == AnswerFailed ==> Released(null, null, old(audioContext), null)
      ensures outcome != CredentialRefused && old(peerConnection) != null ==> unchanged(old(peerConnection))
      ensures outcome != CredentialRefused && old(dataChannel) != null ==> unchanged(old(dataChannel))
      ensures ls != null && old(localStream) != null ==> unchanged(old(localStream).tracks)
      ensures outcome == Connected ==>
                && View() == AfterReset(old(View())).(peerConnection := pc, dataChannel := dc, localStream := ls)
                && unchanged(old(Handles()))
                && !pc.closed
                && dc.state == Connecting
                && (forall i :: 0 <= i < audioTracks ==> ls.tracks[i] == Track(AudioKind, true, true))
    {
      pc, dc, ls := null, null, null;
      ResetForCall();
      if outcome == CredentialRefused {
        EndCall();
      } else {
        pc, dc := CreateConnection();
        if outcome == MediaDenied {
          EndCall();
        } else {
          ls := CaptureMicrophone(audioTracks);
          if outcome == AnswerFailed {
            EndCall();
          }
        }
      }
    }

    /** Steps 2 and 4 of `startCall`: a new connection and its `oai-events` channel. */
    method CreateConnection() returns (ghost pc: PeerConnection, ghost dc: DataChannel)
      modifies this
      ensures fresh(pc) && !pc.closed && fresh(dc) && dc.state == Connecting && dc.sent == []
      ensures View() == old(View()).(peerConnection := pc, dataChannel := dc)
    {
      peerConnection := new PeerConnection();
      dataChannel := new DataChannel();
      pc, dc := peerConnection, dataChannel;
    }

    /** Step 5 of `startCall`: the microphone stream `getUserMedia` grants. */
    method CaptureMicrophone(audioTracks: nat) returns (ghost ls: MediaStream)
      modifies this
      ensures fresh(ls) && fresh(ls.tracks) && ls.tracks.Length == audioTracks
      ensures forall i :: 0 <= i < audioTracks ==> ls.tracks[i] == Track(AudioKind, true, true)
      ensures View() == old(View()).(localStream := ls)
    {
      localStream := new MediaStream(audioTracks);
      ls := localStream;
    }

    /** The resets at the top of `startCall`: zero usage, no pending disconnect, no silence window. */
    method ResetForCall()
      modifies this
      ensures View() == AfterReset(old(View()))
      ensures WindowOnlyWhenPending()
    {
      usage := Zero;
      shouldDisconnect := false;
      aiResponseDone := false;
      silenceStart := None;
    }

    /** The connection's `ontrack`: the inbound stream gets an audio context and an analyser. */
    method RemoteTrackArrived()
      modifies this
      ensures audioContext != null && fresh(audioContext) && !audioContext.closed
      ensures View() == old(View()).(audioContext := audioContext, hasAnalyser := true)
    {
      audioContext := new AudioContext();
      hasAnalyser := true;
    }

    /** The channel's `open` event: the call becomes active and the settings are sent. */
    method ChannelOpened()
      requires dataChannel != null && dataChannel.state == Connecting
      modifies this, dataChannel
      ensures View() == old(View()).(isCallActive := true, messages := old(messages) + [Message(Ai, SettingsUpdatedNotice)])
      ensures dataChannel.state == Open && dataChannel.sent == old(dataChannel.sent) + [SessionUpdateEvent(settings)]
    {
      dataChannel.state := Open;
      isCallActive := true;
      UpdateSession();
    }

    /**
     * The call button: ends an active call, otherwise starts one. `pc`, `dc`
     * and `ls` are what a start created, as `StartCall` says; null on a stop.
     */
    method ClickCallButton(outcome: StartOutcome, audioTracks: nat)
      returns (ghost pc: PeerConnection?, ghost dc: DataChannel?, ghost ls: MediaStream?)
      modifies this, Handles()
      ensures old(isCallActive) ==>
                View() == AfterStop(old(View()))
                && Released(old(peerConnection), old(dataChannel), old(audioContext), old(localStream))
                && pc == null && dc == null && ls == null
      ensures !old(isCallActive) ==> usage == Zero && !shouldDisconnect && !aiResponseDone && silenceStart == None
      ensures !old(isCallActive) && outcome != Connected ==>
                View() == AfterEnd(AfterReset(old(View()))) && TornDown() && CreatedReleased(pc, dc, ls)
      ensures !old(isCallActive) && outcome == Connected ==>
                pc != null && fresh(pc) && dc != null && fresh(dc) && ls != null && fresh(ls)
                && View() == AfterReset(old(View())).(peerConnection := pc, dataChannel := dc, localStream := ls)
    {
      if isCallActive {
        pc, dc, ls := null, null, null;
        StopCall();
      } else {
        pc, dc, ls := StartCall(outcome, audioTracks);
      }
    }

    /** The `+=` merge of a usage block into `sessionUsage`, field by field. */
    method MergeUsage(u: Block)
      modifies this
      ensures View() == old(View()).(usage := Add(old(usage), Counts(u)))
    {
      usage := usage.(totalTokens := usage.totalTokens + OrZero(u.totalTokens));
      usage := usage.(inputTokens := usage.inputTokens + OrZero(u.inputTokens));
      usage := usage.(outputTokens := usage.outputTokens + OrZero(u.outputTokens));
      if u.inputDetails.Some? {
        var d := u.inputDetails.value;
        var c := usage.inputDetails;
        c := c.(cachedTokens := c.cachedTokens + OrZero(d.cachedTokens));
        c := c.(textTokens := c.textTokens + OrZero(d.textTokens));
        c := c.(audioTokens := c.audioTokens + OrZero(d.audioTokens));
        usage := usage.(inputDetails := c);
      }
      if u.outputDetails.Some? {
        var d := u.outputDetails.value;
        var c := usage.outputDetails;
        c := c.(textTokens := c.textTokens + OrZero(d.textTokens));
        c := c.(audioTokens := c.audioTokens + OrZero(d.audioTokens));
        usage := usage.(outputDetails := c);
      }
    }

    /**
     * `handleDataChannelMessage`. The result says whether the message started
     * the termination sequence: the source then runs the first silence tick at
     * once (the caller's `CheckSilence`) and arms the 10 s fail-safe
     * (`FailSafeFires`).
     */
    method HandleMessage(m: Inbound) returns (armed: bool)
      modifies this, if localStream != null then {localStream.tracks} else {}
      ensures armed <==> MessageKind(m) == ResponseCompleted && old(shouldDisconnect)
      ensures MessageKind(m) == Ignored ==> View() == old(View())
      ensures MessageKind(m) == FunctionCallDone ==>
                View() == if RequestsEndCall(m)
                          then old(View()).(shouldDisconnect := true, messages := old(messages) + [Message(Ai, EndingNotice)])
                          else old(View())
      ensures MessageKind(m) == AssistantTranscript ==>
                View() == old(View()).(messages := old(messages) + TranscriptLine(Ai, m.transcript))
      ensures MessageKind(m) == UserTranscript ==>
                View() == old(View()).(messages := old(messages) + TranscriptLine(User, m.transcript))
      ensures MessageKind(m) == ResponseCompleted ==>
                View() == old(View()).(usage := if ResponseUsage(m).Some? then Add(old(usage), Counts(ResponseUsage(m).value))
                                                else old(usage),
                                       aiResponseDone := old(aiResponseDone) || old(shouldDisconnect))
      ensures localStream != null ==>
                forall i :: 0 <= i < localStream.tracks.Length ==>
                  localStream.tracks[i] == if RequestsEndCall(m) then Muted(old(localStream.tracks[i])) else old(localStream.tracks[i])
      ensures old(WindowOnlyWhenPending()) ==> WindowOnlyWhenPending()
      ensures old(WindowOnlyWhenPending()) && RequestsEndCall(m) && !old(shouldDisconnect) ==> silenceStart == None
    {
      armed := false;
      var kind := MessageKind(m);
      if kind == FunctionCallDone {
        if RequestsEndCall(m) {
          BeginEnding();
        }
      } else if kind == AssistantTranscript {
        messages := messages + TranscriptLine(Ai, m.transcript);
      } else if kind == UserTranscript {
        messages := messages + TranscriptLine(User, m.transcript);
      } else if kind == ResponseCompleted {
        var u := ResponseUsage(m);
        if u.Some? {
          MergeUsage(u.value);
        }
        if shouldDisconnect {
          aiResponseDone := true;
          armed := true;
        }
      }
    }

    /** The `end_call` branch: a disconnect is pending, the microphone is muted and the ending is noted. */
    method BeginEnding()
      modifies this, if localStream != null then {localStream.tracks} else {}
      ensures View() == old(View()).(shouldDisconnect := true, messages := old(messages) + [Message(Ai, EndingNotice)])
      ensures localStream != null ==>
                forall i :: 0 <= i < localStream.tracks.Length ==> localStream.tracks[i] == Muted(old(localStream.tracks[i]))
    {
      shouldDisconnect := true;
      if localStream != null {
        localStream.MuteAudio();
      }
      messages := messages + [Message(Ai, EndingNotice)];
    }

    /**
     * One tick of `checkSilence` on the analyser's bytes at clock `now`. A
     * `Stop` tick has run `stopCall`; only a `Reschedule` tick asks for another.
     */
    method CheckSilence(samples: seq<Byte>, now: int) returns (act: TickAction)
      modifies this, Handles()
      ensures var t := SilenceStep(old(Armed()), old(silenceStart), samples, now);
              && act == t.action
              && (act == Stop ==>
                    View() == AfterStop(old(View()))
                    && Released(old(peerConnection), old(dataChannel), old(audioContext), old(localStream)))
              && (act != Stop ==> View() == old(View()).(silenceStart := t.silenceStart) && unchanged(Handles()))
      ensures old(WindowOnlyWhenPending()) ==> WindowOnlyWhenPending()
    {
      if !(isCallActive && hasAnalyser && shouldDisconnect) {
        return Halt;
      }
      var quiet := MeasureQuiet(samples);
      if quiet {
        if silenceStart.None? {
          silenceStart := Some(now);
        } else if now - silenceStart.value > SilenceBoundMs {
          StopCall();
          return Stop;
        }
      } else {
        silenceStart := None;
      }
      act := Reschedule;
    }

    /**
     * A message arriving on the channel: the handler runs and, when it starts
     * the termination sequence, the first silence tick runs at once, as the
     * handler's synchronous call to `checkSilence` does. The result says
     * whether the fail-safe timer was armed, and the first tick's action.
     */
    method OnChannelMessage(m: Inbound, samples: seq<Byte>, now: int) returns (failSafeArmed: bool, tick: Option<TickAction>)
      modifies this, Handles()
      ensures failSafeArmed <==> MessageKind(m) == ResponseCompleted && old(shouldDisconnect)
      ensures tick.Some? <==> failSafeArmed
      ensures failSafeArmed ==> tick.value == SilenceStep(old(Armed()), old(silenceStart), samples, now).action
      ensures failSafeArmed && tick.value != Stop ==> aiResponseDone && isCallActive == old(isCallActive)
      ensures tick == Some(Stop) ==> TornDown()
      ensures !failSafeArmed ==> silenceStart == old(silenceStart) && isCallActive == old(isCallActive)
      ensures old(WindowOnlyWhenPending()) ==> WindowOnlyWhenPending()
    {
      failSafeArmed := HandleMessage(m);
      if failSafeArmed {
        var act := CheckSilence(samples, now);
        tick := Some(act);
      } else {
        tick := None;
      }
    }

    /** The 10 s fail-safe: ends the call only if it is still active. */
    method FailSafeFires() returns (fired: bool)
      modifies this, Handles()
      ensures fired == old(isCallActive)
      ensures fired ==> View() == AfterStop(old(View()))
                        && Released(old(peerConnection), old(dataChannel), old(audioContext), old(localStream))
      ensures !fired ==> View() == old(View()) && unchanged(Handles())
      ensures old(WindowOnlyWhenPending()) ==> WindowOnlyWhenPending()
    {
      fired := isCallActive;
      if fired {
        StopCall();
      }
    }

    /** Silence ends the call first; the fail-safe that fires afterwards does nothing. */
    method SilenceThenFailSafe(samples: seq<Byte>, now: int)
      requires Armed() && Quiet(samples) && silenceStart.Some? && now - silenceStart.value > SilenceBoundMs
      modifies this, Handles()
      ensures messages == old(messages) + StopSummary(old(usage), old(settings.model), old(exchangeRate))
      ensures TornDown()
    {
      var act := CheckSilence(samples, now);
      assert act == Stop;
      var fired := FailSafeFires();
      assert !fired;
    }

    /** The fail-safe ends the call first; the next silence tick halts without stopping again. */
    method FailSafeThenSilence(samples: seq<Byte>, now: int)
      requires isCallActive
      modifies this, Handles()
      ensures messages == old(messages) + StopSummary(old(usage), old(settings.model), old(exchangeRate))
      ensures TornDown()
    {
      var fired := FailSafeFires();
      var act := CheckSilence(samples, now);
      assert act == Halt;
    }
  }
}
