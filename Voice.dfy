/**
 * The voice session's event handler: one server message may carry a decoded audio chunk, a
 * partial transcript of each side, a turn-complete flag and an interruption flag, and the
 * handler deals with them in that order. The controller also owns the on/off toggle.
 */
module Voice {
  import opened Types
  import opened Playback
  import opened Transcript

  /**
   * What the audio branch meets: no audio data (or no output context), a chunk that decodes to
   * `duration` seconds, a chunk whose decoding rejects, or a model turn without `parts`, whose
   * `parts[0]` throws before anything else runs.
   */
  datatype AudioPart = NoAudio | Decoded(duration: Time) | DecodeFails | PartsMissing

  /** A server message, as the handler reads it. */
  datatype ServerMessage = ServerMessage(
    audio: AudioPart,
    inputTranscription: Option<Transcription>,
    outputTranscription: Option<Transcription>,
    turnComplete: bool,
    interrupted: bool)

  /** Identities and timestamps for the messages a turn boundary may create. */
  datatype Stamps = Stamps(userId: string, userTime: int, aiId: string, aiTime: int)

  /** The handler throws in its audio branch and so never reaches the transcripts or the flags. */
  predicate Aborts(m: ServerMessage)
  {
    m.audio.DecodeFails? || m.audio.PartsMissing?
  }

  /** The audio part of the handler, then the interruption, as one step on the playback state. */
  function PlaybackStep(p: PlaybackState, m: ServerMessage, now: Time): PlaybackState
  {
    match m.audio
    case PartsMissing => p
    case DecodeFails => Advance(p, now)
    case NoAudio => if m.interrupted then StopAll(p) else p
    case Decoded(d) => var q := Schedule(p, now, d); if m.interrupted then StopAll(q) else q
  }

  /** The transcript part of the handler, in source order; nothing when the audio branch threw. */
  function TranscriptStep(t: TranscriptState, m: ServerMessage, ids: Stamps): TranscriptState
  {
    if Aborts(m) then t else
    var t1 := if m.inputTranscription.Some? then Partial(t, User, m.inputTranscription.value) else t;
    var t2 := if m.outputTranscription.Some? then Partial(t1, Assistant, m.outputTranscription.value) else t1;
    if m.turnComplete then TurnComplete(t2, ids.userId, ids.userTime, ids.aiId, ids.aiTime) else t2
  }

  /**
   * An interruption wins over audio in the same message: afterwards no source is live and
   * the cursor is 0, and every source that was live, or was started by this very message, has
   * been stopped. When the audio branch throws, the flag is never read and every live source
   * plays on.
   */
  lemma InterruptionSilences(p: PlaybackState, m: ServerMessage, now: Time)
    requires StateValid(p)
    requires m.interrupted
    ensures var q := PlaybackStep(p, m, now);
      && StateValid(q)
      && (!Aborts(m) ==>
            q.sources == {} && q.cursor == 0.0
            && p.sources <= q.halted
            && (m.audio.Decoded? ==> p.nextId in q.halted))
      && (Aborts(m) ==> q.sources == p.sources && q.halted == p.halted)
  {
    match m.audio
    case Decoded(d) =>
      ScheduleFacts(p, now, d);
      StopAllFacts(Schedule(p, now, d));
    case NoAudio =>
      StopAllFacts(p);
    case DecodeFails =>
      AdvanceFacts(p, now);
    case PartsMissing =>
  }

  /**
   * A message with decoded audio and no interruption starts exactly one chunk, at
   * max(cursor, now), and leaves the cursor at its end; a failed decode moves the cursor to
   * max(cursor, now) and starts nothing; a message without audio leaves playback alone.
   */
  lemma AudioMessageSchedules(p: PlaybackState, m: ServerMessage, now: Time)
    requires StateValid(p)
    requires !m.interrupted
    ensures var q := PlaybackStep(p, m, now);
      && StateValid(q)
      && (m.audio.NoAudio? || m.audio.PartsMissing? ==> q == p)
      && (m.audio.Decoded? ==>
            q.sources == p.sources + {p.nextId} && p.nextId !in p.sources
            && q.cursor == Max(p.cursor, now) + m.audio.duration && q.cursor >= now)
      && (m.audio.DecodeFails? ==> q.sources == p.sources && q.cursor == Max(p.cursor, now))
  {
    match m.audio
    case Decoded(d) => ScheduleFacts(p, now, d);
    case DecodeFails => AdvanceFacts(p, now);
    case NoAudio =>
    case PartsMissing =>
  }

  /**
   * A message whose audio branch throws leaves the transcript buffers and the log exactly as
   * they were, whatever transcripts or turn boundary it carried.
   */
  lemma AbortedMessageSkipsTranscripts(t: TranscriptState, m: ServerMessage, ids: Stamps)
    requires Aborts(m)
    ensures TranscriptStep(t, m, ids) == t
  {
  }

  /**
   * A turn-complete message whose audio branch does not throw leaves both buffers empty, and
   * the earlier log is kept; a message without transcripts or a turn boundary leaves the
   * transcript state alone.
   */
  lemma TurnCompleteEmptiesBuffers(t: TranscriptState, m: ServerMessage, ids: Stamps)
    ensures m.turnComplete && !Aborts(m) ==>
      var u := TranscriptStep(t, m, ids);
      u.user == "" && u.assistant == "" && |t.log| <= |u.log| && u.log[..|t.log|] == t.log
    ensures m.inputTranscription.None? && m.outputTranscription.None? && !m.turnComplete ==>
      TranscriptStep(t, m, ids) == t
  {
    var t1 := if m.inputTranscription.Some? then Partial(t, User, m.inputTranscription.value) else t;
    var t2 := if m.outputTranscription.Some? then Partial(t1, Assistant, m.outputTranscription.value) else t1;
    TurnCompleteFacts(t2, ids.userId, ids.userTime, ids.aiId, ids.aiTime);
  }

  /** The controller behind the microphone button: playback, transcripts, and `isVoiceActive`. */
  class VoiceController {
    const playback: Scheduler
    const chat: Conversation
    var active: bool

    ghost predicate Valid()
      reads this, playback
    {
      playback.Valid()
    }

    constructor (time: int)
      ensures Valid() && !active && fresh(playback) && fresh(chat)
      ensures playback.State() == Initial()
      ensures chat.State() == TranscriptState("", "", InitialLog(time))
    {
      playback := new Scheduler();
      chat := new Conversation(time);
      active := false;
    }

    /**
     * `onmessage`, with the decode step treated as part of one atomic step; a throw in the
     * audio branch ends the handler there.
     */
    method OnMessage(m: ServerMessage, now: Time, ids: Stamps)
      requires Valid()
      modifies playback, chat
      ensures Valid()
      ensures playback.State() == PlaybackStep(old(playback.State()), m, now)
      ensures chat.State() == TranscriptStep(old(chat.State()), m, ids)
    {
      match m.audio {
        case PartsMissing =>
          return;
        case DecodeFails =>
          playback.AdvanceTo(now);
          return;
        case Decoded(d) =>
          var _, _ := playback.ScheduleChunk(now, d);
        case NoAudio =>
      }
      if m.inputTranscription.Some? {
        chat.AppendPartial(User, m.inputTranscription.value);
      }
      if m.outputTranscription.Some? {
        chat.AppendPartial(Assistant, m.outputTranscription.value);
      }
      if m.turnComplete {
        chat.CompleteTurn(ids.userId, ids.userTime, ids.aiId, ids.aiTime);
      }
      if m.interrupted {
        playback.StopAllAudio();
      }
    }

    /**
     * The microphone button. When a session is active it is stopped; otherwise playback is
     * flushed and a connection is requested (it becomes active only when it opens).
     */
    method Toggle()
      requires Valid()
      modifies this, playback
      ensures Valid() && !active
      ensures playback.State() == StopAll(old(playback.State()))
    {
      if active {
        StopVoiceSession();
        return;
      }
      playback.StopAllAudio();
    }

    /** `stopVoiceSession`: clear the flag and flush playback, whatever the state. */
    method StopVoiceSession()
      requires Valid()
      modifies this, playback
      ensures Valid() && !active
      ensures playback.State() == StopAll(old(playback.State()))
    {
      active := false;
      playback.StopAllAudio();
    }

    /**
     * `navigateTo`: playback is flushed and the view's log installed, but the session is not
     * stopped, so it goes on feeding the buffers and the new log.
     */
    method Navigate(view: ViewType, time: int)
      requires Valid()
      modifies playback, chat
      ensures Valid() && active == old(active)
      ensures playback.State() == StopAll(old(playback.State()))
      ensures chat.State() == ReplaceLog(old(chat.State()), NavigationLog(view, time))
    {
      playback.StopAllAudio();
      chat.ReplaceMessages(NavigationLog(view, time));
    }

    /** Choosing a topic: the log becomes the topic's opening message. */
    method SelectTopic(t: Topic, id: string, time: int)
      modifies chat
      ensures chat.State() == ReplaceLog(old(chat.State()), [Message(id, Assistant, t.initialMessage, time)])
    {
      chat.ReplaceMessages([Message(id, Assistant, t.initialMessage, time)]);
    }

    /** The breadcrumb back to the topic list: the log is emptied. */
    method BackToTopics()
      modifies chat
      ensures chat.State() == ReplaceLog(old(chat.State()), [])
    {
      chat.ReplaceMessages([]);
    }

    /** `onopen`. */
    method OnOpen()
      modifies this
      ensures active
    {
      active := true;
    }

    /** `onclose` and `onerror`: only the flag is cleared; playback is left as it is. */
    method OnClose()
      modifies this
      ensures !active
      ensures playback.State() == old(playback.State())
    {
      active := false;
    }
  }
}
