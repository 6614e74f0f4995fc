/**
 * The transcript accumulator of the voice session and the chat log it feeds. Partial
 * transcripts of the user's and of the assistant's speech pile up in two buffers; a
 * turn-complete event commits each non-empty buffer to the log as one message, user first,
 * and empties both buffers. Messages are appended at the log's end; navigation and topic
 * choice replace the whole log (`ReplaceLog`).
 */
module Transcript {
  import opened Types

  /** A transcription event as the service delivers it; its `text` field is optional. */
  datatype Transcription = Transcription(text: Option<string>)

  /**
   * The buffer update as App.tsx writes it, `prev + transcription?.text`: JavaScript turns a
   * missing text into the string "undefined".
   */
  function AsWrittenExtend(prev: string, t: Transcription): string
  {
    prev + match t.text
      case Some(s) => s
      case None => "undefined"
  }

  /** An event that carries no text still changes the buffer in the code as written. */
  lemma AsWrittenAbsentTextAppendsUndefined(prev: string)
    ensures AsWrittenExtend(prev, Transcription(None)) == prev + "undefined"
    ensures AsWrittenExtend(prev, Transcription(None)) != prev
  {
  }

  /** The intended update: the buffer grows by the delivered text, and by nothing when there is none. */
  function Extend(prev: string, t: Transcription): (r: string)
    ensures t.text.None? ==> r == prev
  {
    prev + t.text.GetOr("")
  }

  /** The intended update agrees with the code whenever the event carries its text. */
  lemma ExtendAgreesWhenTextPresent(prev: string, s: string)
    ensures Extend(prev, Transcription(Some(s))) == AsWrittenExtend(prev, Transcription(Some(s)))
    ensures Extend(prev, Transcription(Some(s)))[..|prev|] == prev
    ensures Extend(prev, Transcription(Some(s)))[|prev|..] == s
  {
  }

  // ---------------------------------------------------------------------------------------
  // The state as a value, and its operations.
  // ---------------------------------------------------------------------------------------

  /** `lastUserTranscription`, `lastAiTranscription` and `messages`. */
  datatype TranscriptState = TranscriptState(user: string, assistant: string, log: seq<Message>)

  /** `addMessage`: append one message to the log. */
  function AddMessage(log: seq<Message>, role: Role, text: string, id: string, timestamp: int): seq<Message>
  {
    log + [Message(id, role, text, timestamp)]
  }

  /** A partial transcript for `role`. */
  function Partial(s: TranscriptState, role: Role, t: Transcription): TranscriptState
  {
    match role
    case User => s.(user := Extend(s.user, t))
    case Assistant => s.(assistant := Extend(s.assistant, t))
  }

  /** Turn complete: commit each non-empty buffer, user first, then empty both. */
  function TurnComplete(s: TranscriptState, userId: string, userTime: int, aiId: string, aiTime: int): TranscriptState
  {
    var afterUser := if s.user != "" then AddMessage(s.log, User, s.user, userId, userTime) else s.log;
    var afterAi := if s.assistant != "" then AddMessage(afterUser, Assistant, s.assistant, aiId, aiTime) else afterUser;
    TranscriptState("", "", afterAi)
  }

  /** Navigation and topic selection install a new log outright; the buffers are kept. */
  function ReplaceLog(s: TranscriptState, log: seq<Message>): TranscriptState
  {
    s.(log := log)
  }

  const InitialGreeting: string := "Hello! I am Elfas. Let's practice English. Where shall we start?"

  /** The log the app starts with: one assistant greeting with id "1", stamped `time`. */
  function InitialLog(time: int): (r: seq<Message>)
    ensures |r| == 1 && r[0].id == "1" && r[0].role == Assistant
    ensures r[0].text == InitialGreeting && r[0].timestamp == time
  {
    [Message("1", Assistant, InitialGreeting, time)]
  }

  const FreeChatGreeting: string := "Ready for more practice! What's on your mind?"
  const LevelTestGreeting: string := "Greetings! I am the Grand Mage. Let's find out your English power level. Answer my questions naturally. Ready? Question 1: Tell me about your typical morning routine."

  /**
   * The log `navigateTo` installs: one assistant greeting with id "1" for free chat and for the
   * level test, and an empty log for the topic browser.
   */
  function NavigationLog(view: ViewType, time: int): (r: seq<Message>)
    ensures r == [] <==> view == Topics
    ensures r != [] ==> |r| == 1 && r[0].id == "1" && r[0].role == Assistant && r[0].timestamp == time
    ensures view == FreeChat ==> r[0].text == FreeChatGreeting
    ensures view == LevelTest ==> r[0].text == LevelTestGreeting
  {
    match view
    case FreeChat => [Message("1", Assistant, FreeChatGreeting, time)]
    case LevelTest => [Message("1", Assistant, LevelTestGreeting, time)]
    case Topics => []
  }

  /** The role and text of each message of a log, in order. */
  function Entries(log: seq<Message>): (r: seq<(Role, string)>)
    ensures |r| == |log|
    ensures forall i :: 0 <= i < |log| ==> r[i] == (log[i].role, log[i].text)
  {
    if log == [] then [] else Entries(log[..|log| - 1]) + [(log[|log| - 1].role, log[|log| - 1].text)]
  }

  /** What a turn boundary should commit, stated independently: one entry per non-empty buffer, user first. */
  function Finalized(user: string, assistant: string): seq<(Role, string)>
  {
    (if user != "" then [(User, user)] else []) + (if assistant != "" then [(Assistant, assistant)] else [])
  }

  /**
   * A partial transcript extends its own role's buffer by exactly the delivered text and
   * leaves the other buffer and the log untouched.
   */
  lemma PartialFacts(s: TranscriptState, role: Role, text: string)
    ensures var t := Partial(s, role, Transcription(Some(text)));
      && t.log == s.log
      && (role == User ==> t.user == s.user + text && t.assistant == s.assistant)
      && (role == Assistant ==> t.assistant == s.assistant + text && t.user == s.user)
  {
  }

  /**
   * Turn complete leaves both buffers empty, keeps every earlier log entry, and appends exactly
   * the finalized entries: each carries a non-empty buffer's text and that buffer's role, with
   * the user's first; an empty buffer contributes nothing.
   */
  lemma TurnCompleteFacts(s: TranscriptState, userId: string, userTime: int, aiId: string, aiTime: int)
    ensures var t := TurnComplete(s, userId, userTime, aiId, aiTime);
      && t.user == "" && t.assistant == ""
      && |s.log| <= |t.log|
      && t.log[..|s.log|] == s.log
      && Entries(t.log[|s.log|..]) == Finalized(s.user, s.assistant)
      && (forall i :: |s.log| <= i < |t.log| ==> t.log[i].text != "")
      && |t.log| == |s.log| + (if s.user != "" then 1 else 0) + (if s.assistant != "" then 1 else 0)
  {
    var t := TurnComplete(s, userId, userTime, aiId, aiTime);
    var added := t.log[|s.log|..];
    assert t.log == s.log + added;
    if s.user != "" && s.assistant != "" {
      assert added == [Message(userId, User, s.user, userTime), Message(aiId, Assistant, s.assistant, aiTime)];
    } else if s.user != "" {
      assert added == [Message(userId, User, s.user, userTime)];
    } else if s.assistant != "" {
      assert added == [Message(aiId, Assistant, s.assistant, aiTime)];
    } else {
      assert added == [];
    }
  }

  /** The worked example: "Hel" and "lo" from the user and "Hi" from the assistant make two messages. */
  lemma HelloExample(log: seq<Message>)
    ensures var s0 := TranscriptState("", "", log);
      var s1 := Partial(Partial(Partial(s0, User, Transcription(Some("Hel"))), User, Transcription(Some("lo"))), Assistant, Transcription(Some("Hi")));
      var s2 := TurnComplete(s1, "u", 1, "a", 2);
      && s2.log == log + [Message("u", User, "Hello", 1), Message("a", Assistant, "Hi", 2)]
      && s2.user == "" && s2.assistant == ""
  {
    var s0 := TranscriptState("", "", log);
    var s1 := Partial(Partial(Partial(s0, User, Transcription(Some("Hel"))), User, Transcription(Some("lo"))), Assistant, Transcription(Some("Hi")));
    assert s1.user == "Hello";
    assert s1.assistant == "Hi";
  }

  /**
   * Replacing the log does not flush the buffers: a turn boundary after a replacement commits
   * what was spoken before it into the new log, after the new log's own messages.
   */
  lemma BuffersSurviveReplace(s: TranscriptState, log: seq<Message>, userId: string, userTime: int, aiId: string, aiTime: int)
    ensures var t := TurnComplete(ReplaceLog(s, log), userId, userTime, aiId, aiTime);
      && |log| <= |t.log| && t.log[..|log|] == log
      && Entries(t.log[|log|..]) == Finalized(s.user, s.assistant)
  {
    TurnCompleteFacts(ReplaceLog(s, log), userId, userTime, aiId, aiTime);
  }

  /** A turn boundary with both buffers empty commits nothing. */
  lemma EmptyTurnCommitsNothing(log: seq<Message>, userId: string, userTime: int, aiId: string, aiTime: int)
    ensures TurnComplete(TranscriptState("", "", log), userId, userTime, aiId, aiTime) == TranscriptState("", "", log)
  {
  }

  // ---------------------------------------------------------------------------------------
  // The React state, updated in place.
  // ---------------------------------------------------------------------------------------

  class Conversation {
    var userPartial: string
    var assistantPartial: string
    var messages: seq<Message>

    function State(): TranscriptState
      reads this
    {
      TranscriptState(userPartial, assistantPartial, messages)
    }

    /** The app starts with its greeting message, stamped `time`, and empty transcripts. */
    constructor (time: int)
      ensures State() == TranscriptState("", "", InitialLog(time))
    {
      userPartial, assistantPartial, messages := "", "", InitialLog(time);
    }

    /** `addMessage`: append one message at the log's end. */
    method AddMessage(role: Role, text: string, id: string, timestamp: int)
      modifies this
      ensures messages == old(messages) + [Message(id, role, text, timestamp)]
      ensures userPartial == old(userPartial) && assistantPartial == old(assistantPartial)
    {
      messages := messages + [Message(id, role, text, timestamp)];
    }

    /** `setMessages(log)` of navigation and topic selection: the log is replaced outright. */
    method ReplaceMessages(log: seq<Message>)
      modifies this
      ensures State() == ReplaceLog(old(State()), log)
    {
      messages := log;
    }

    /** `inputTranscription` (role User) or `outputTranscription` (role Assistant). */
    method AppendPartial(role: Role, t: Transcription)
      modifies this
      ensures State() == Partial(old(State()), role, t)
    {
      if role == User {
        userPartial := Extend(userPartial, t);
      } else {
        assistantPartial := Extend(assistantPartial, t);
      }
    }

    /** `turnComplete`: commit the user's buffer, then the assistant's, and empty both. */
    method CompleteTurn(userId: string, userTime: int, aiId: string, aiTime: int)
      modifies this
      ensures State() == TurnComplete(old(State()), userId, userTime, aiId, aiTime)
    {
      if userPartial != "" {
        AddMessage(User, userPartial, userId, userTime);
      }
      userPartial := "";
      if assistantPartial != "" {
        AddMessage(Assistant, assistantPartial, aiId, aiTime);
      }
      assistantPartial := "";
    }
  }
}
