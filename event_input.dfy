/**
 * The event-configuration editor (`EventInput` component): a raw text buffer
 * holding a JSON chat-update document, a valid/invalid indicator, persistence
 * of the document under the store key `chatUpdate`, a conversation-mode
 * selector written into the document at `data.turn_detection.type`, and a
 * reply-mode selector stored on its own under `replyMode`.
 *
 * `JSON.parse`, `WsToolsUtils.setValueByPath` and `JSON.stringify` are library
 * code; they are held opaque as the two functions of a `JsonLib`, about which
 * nothing is assumed.
 */
module EventConfig {
  import opened Wrappers

  /** Store key of the persisted document. */
  const ChatUpdateKey := "chatUpdate"

  /** Store key of the reply mode. */
  const ReplyModeKey := "replyMode"

  /** The conversation mode shown when the stored document names none. */
  const DefaultConversationMode := "server_vad"

  /** How replies are delivered: streamed, or synchronised with subtitles sentence by sentence. */
  datatype ReplyMode = Stream | Sentence

  /** The string stored for a reply mode. */
  function ReplyModeName(m: ReplyMode): string {
    match m
    case Stream => "stream"
    case Sentence => "sentence"
  }

  /**
   * The JSON library as the editor uses it: `parses(s)` holds when
   * `JSON.parse(s)` returns, and `setTurnDetection(s, v)` is the text
   * `JSON.stringify(doc, null, 2)` produces after `setValueByPath(doc,
   * 'data.turn_detection.type', v)` on the parsed `doc`, or `None` when either
   * call throws.
   */
  datatype JsonLib = JsonLib(parses: string -> bool, setTurnDetection: (string, string) -> Option<string>)

  /** `getReplyModeFromJson`: sentence exactly when the stored string is "sentence", stream otherwise or when nothing is stored. */
  function DecodeReplyMode(stored: Option<string>): (m: ReplyMode)
    ensures m == Sentence <==> stored == Some("sentence")
    ensures m == Stream <==> stored != Some("sentence")
  {
    if stored == Some("sentence") then Sentence else Stream
  }

  /** Decoding the stored name of a reply mode gives that mode back. */
  lemma ReplyModeRoundTrip(m: ReplyMode)
    ensures DecodeReplyMode(Some(ReplyModeName(m))) == m
  {
  }

  /** The initial buffer, `defaultValue || ''`: the default value, or empty when there is none. */
  function InitialBuffer(defaultValue: Option<string>): (b: string)
    ensures defaultValue.Some? ==> b == defaultValue.value
    ensures defaultValue.None? ==> b == ""
  {
    if defaultValue.Some? && defaultValue.value != "" then defaultValue.value else ""
  }

  /**
   * The conversation mode the selector starts at, `turnDetection || 'server_vad'`:
   * the stored type when it is a non-empty string, `server_vad` otherwise.
   */
  function InitialConversationMode(storedType: Option<string>): (m: string)
    ensures m != ""
    ensures storedType.Some? && storedType.value != "" ==> m == storedType.value
    ensures storedType.None? || storedType.value == "" ==> m == DefaultConversationMode
  {
    if storedType.Some? && storedType.value != "" then storedType.value else DefaultConversationMode
  }

  /** The editor's state: the component's three state values and the store it writes. */
  datatype EditorState = EditorState(buffer: string, isValidJson: bool, replyMode: ReplyMode, store: map<string, string>)

  /** The state on mount: the default buffer, shown as valid whatever it holds, and the decoded stored reply mode. */
  function Initial(defaultValue: Option<string>, store: map<string, string>): EditorState {
    EditorState(InitialBuffer(defaultValue), true, DecodeReplyMode(Get(store, ReplyModeKey)), store)
  }

  /** `handleInputChange`: the buffer takes the typed text; the flag and the store follow whether it parses. */
  function InputChange(lib: JsonLib, st: EditorState, text: string): EditorState {
    if lib.parses(text) then
      st.(buffer := text, isValidJson := true, store := st.store[ChatUpdateKey := text])
    else
      st.(buffer := text, isValidJson := false)
  }

  /**
   * `handleTurnDetectionChange`: rewrites the current buffer with the new mode
   * and persists it, or, when parsing or rewriting throws, logs and does nothing.
   */
  function TurnDetectionChange(lib: JsonLib, st: EditorState, value: string): EditorState {
    if !lib.parses(st.buffer) then st
    else
      match lib.setTurnDetection(st.buffer, value)
      case None => st
      case Some(updated) => st.(buffer := updated, store := st.store[ChatUpdateKey := updated])
  }

  /** `handleReplyModeChange`: the mode is shown and stored. */
  function ReplyModeChange(st: EditorState, m: ReplyMode): EditorState {
    st.(replyMode := m, store := st.store[ReplyModeKey := ReplyModeName(m)])
  }

  /** A raw edit always shows the typed text; it is persisted verbatim exactly when it parses, and nothing else is stored. */
  lemma RawEditOutcome(lib: JsonLib, st: EditorState, text: string)
    ensures var r := InputChange(lib, st, text);
            && r.buffer == text
            && r.isValidJson == lib.parses(text)
            && r.replyMode == st.replyMode
            && (lib.parses(text) ==> Get(r.store, ChatUpdateKey) == Some(text))
            && (lib.parses(text) ==> r.store - {ChatUpdateKey} == st.store - {ChatUpdateKey})
            && (!lib.parses(text) ==> r.store == st.store)
  {
  }

  /** Typing the same text twice leaves the editor as typing it once does. */
  lemma RawEditIdempotent(lib: JsonLib, st: EditorState, text: string)
    ensures InputChange(lib, InputChange(lib, st, text), text) == InputChange(lib, st, text)
  {
  }

  /** A conversation-mode change on a buffer that does not parse changes nothing. */
  lemma TurnDetectionOnUnparsableIsNoOp(lib: JsonLib, st: EditorState, value: string)
    requires !lib.parses(st.buffer)
    ensures TurnDetectionChange(lib, st, value) == st
  {
  }

  /**
   * Since `JSON.parse('')` throws, a conversation-mode change straight after
   * mounting with an absent or empty default value changes nothing.
   */
  lemma TurnDetectionOnEmptyDefaultIsNoOp(lib: JsonLib, defaultValue: Option<string>, store: map<string, string>, value: string)
    requires !lib.parses("")
    requires InitialBuffer(defaultValue) == ""
    ensures TurnDetectionChange(lib, Initial(defaultValue, store), value) == Initial(defaultValue, store)
  {
  }

  /**
   * A conversation-mode change that succeeds puts the same re-serialised text
   * in the buffer and under `chatUpdate`, and leaves the flag, the reply mode
   * and every other key alone.
   */
  lemma TurnDetectionOutcome(lib: JsonLib, st: EditorState, value: string)
    requires lib.parses(st.buffer) && lib.setTurnDetection(st.buffer, value).Some?
    ensures var r := TurnDetectionChange(lib, st, value);
            && r.buffer == lib.setTurnDetection(st.buffer, value).value
            && Get(r.store, ChatUpdateKey) == Some(r.buffer)
            && r.store - {ChatUpdateKey} == st.store - {ChatUpdateKey}
            && r.isValidJson == st.isValidJson && r.replyMode == st.replyMode
  {
  }

  /** A reply-mode change shows and stores the mode, reads back as it, and touches nothing else. */
  lemma ReplyModeOutcome(st: EditorState, m: ReplyMode)
    ensures var r := ReplyModeChange(st, m);
            && r.replyMode == m
            && Get(r.store, ReplyModeKey) == Some(ReplyModeName(m))
            && DecodeReplyMode(Get(r.store, ReplyModeKey)) == m
            && r.buffer == st.buffer && r.isValidJson == st.isValidJson
            && r.store - {ReplyModeKey} == st.store - {ReplyModeKey}
  {
  }

  /** A user action on the editor. */
  datatype Event = RawEdit(text: string) | TurnDetectionSelect(value: string) | ReplyModeSelect(mode: ReplyMode)

  function Step(lib: JsonLib, st: EditorState, e: Event): EditorState {
    match e
    case RawEdit(text) => InputChange(lib, st, text)
    case TurnDetectionSelect(value) => TurnDetectionChange(lib, st, value)
    case ReplyModeSelect(mode) => ReplyModeChange(st, mode)
  }

  /** The state after the events `evs`, in order. */
  function Run(lib: JsonLib, st: EditorState, evs: seq<Event>): EditorState
    decreases |evs|
  {
    if evs == [] then st else Step(lib, Run(lib, st, evs[..|evs| - 1]), evs[|evs| - 1])
  }

  /** However the editor is used, it writes no store key other than `chatUpdate` and `replyMode`. */
  lemma {:induction false} RunWritesOnlyItsKeys(lib: JsonLib, st: EditorState, evs: seq<Event>)
    ensures Run(lib, st, evs).store - {ChatUpdateKey, ReplyModeKey} == st.store - {ChatUpdateKey, ReplyModeKey}
    decreases |evs|
  {
    if evs != [] {
      var prev := Run(lib, st, evs[..|evs| - 1]);
      RunWritesOnlyItsKeys(lib, st, evs[..|evs| - 1]);
      var next := Step(lib, prev, evs[|evs| - 1]);
      assert next.store - {ChatUpdateKey, ReplyModeKey} == prev.store - {ChatUpdateKey, ReplyModeKey};
    }
  }

  /** The flag never shows an error for a buffer that parses. */
  ghost predicate FlagSound(lib: JsonLib, st: EditorState) {
    lib.parses(st.buffer) ==> st.isValidJson
  }

  /** The initial state (flag valid) is flag-sound, and every run keeps it so. */
  lemma {:induction false} RunKeepsFlagSound(lib: JsonLib, defaultValue: Option<string>, store: map<string, string>, evs: seq<Event>)
    ensures FlagSound(lib, Run(lib, Initial(defaultValue, store), evs))
    decreases |evs|
  {
    if evs != [] {
      RunKeepsFlagSound(lib, defaultValue, store, evs[..|evs| - 1]);
    }
  }

  /** The reply mode shown is the one that decodes from the store. */
  ghost predicate ReplyModeInSync(st: EditorState) {
    st.replyMode == DecodeReplyMode(Get(st.store, ReplyModeKey))
  }

  /** The reply mode shown agrees with the stored one on mount and after every run. */
  lemma {:induction false} RunKeepsReplyModeInSync(lib: JsonLib, defaultValue: Option<string>, store: map<string, string>, evs: seq<Event>)
    ensures ReplyModeInSync(Run(lib, Initial(defaultValue, store), evs))
    decreases |evs|
  {
    if evs != [] {
      var prev := Run(lib, Initial(defaultValue, store), evs[..|evs| - 1]);
      RunKeepsReplyModeInSync(lib, defaultValue, store, evs[..|evs| - 1]);
      var e := evs[|evs| - 1];
      if e.ReplyModeSelect? {
        ReplyModeRoundTrip(e.mode);
      } else {
        assert Get(Step(lib, prev, e).store, ReplyModeKey) == Get(prev.store, ReplyModeKey);
      }
    }
  }

  /** When the flag shows valid, the persisted document is exactly the buffer. */
  ghost predicate PersistedIsBuffer(st: EditorState) {
    st.isValidJson ==> Get(st.store, ChatUpdateKey) == Some(st.buffer)
  }

  /** Every raw edit leaves the buffer, flag and persisted document agreeing, and every later event keeps them so. */
  lemma {:induction false} RunKeepsPersistedIsBuffer(lib: JsonLib, st: EditorState, evs: seq<Event>)
    requires PersistedIsBuffer(st) || (evs != [] && evs[0].RawEdit?)
    ensures PersistedIsBuffer(Run(lib, st, evs))
    decreases |evs|
  {
    if evs != [] {
      var init := evs[..|evs| - 1];
      if init != [] {
        assert init[0] == evs[0];
        RunKeepsPersistedIsBuffer(lib, st, init);
      } else if !PersistedIsBuffer(st) {
        assert Run(lib, st, init) == st;
      }
    }
  }

  /** Running `a` and then `b` is running `a + b`. */
  lemma {:induction false} RunAppend(lib: JsonLib, st: EditorState, a: seq<Event>, b: seq<Event>)
    ensures Run(lib, st, a + b) == Run(lib, Run(lib, st, a), b)
    decreases |b|
  {
    if b != [] {
      var ab := a + b;
      assert ab[..|ab| - 1] == a + b[..|b| - 1];
      assert ab[|ab| - 1] == b[|b| - 1];
      RunAppend(lib, st, a, b[..|b| - 1]);
    } else {
      assert a + b == a;
    }
  }

  /**
   * From any state, once a raw edit has happened, whatever came before it and
   * whatever follows, a valid flag means the persisted document is the buffer.
   */
  lemma PersistedIsBufferAfterRawEdit(lib: JsonLib, st: EditorState, before: seq<Event>, text: string, after: seq<Event>)
    ensures PersistedIsBuffer(Run(lib, st, before + [RawEdit(text)] + after))
  {
    var mid := Run(lib, st, before);
    RunAppend(lib, st, before, [RawEdit(text)] + after);
    assert before + [RawEdit(text)] + after == before + ([RawEdit(text)] + after);
    RunKeepsPersistedIsBuffer(lib, mid, [RawEdit(text)] + after);
  }

  /** The text of the last raw edit in `evs` that parses, if any. */
  function LastParsable(lib: JsonLib, evs: seq<Event>): Option<string>
    decreases |evs|
  {
    if evs == [] then None
    else
      var e := evs[|evs| - 1];
      if e.RawEdit? && lib.parses(e.text) then Some(e.text) else LastParsable(lib, evs[..|evs| - 1])
  }

  /**
   * Without conversation-mode changes, the persisted document is the last
   * typed text that parsed; when none parsed it is what was stored before.
   * Unparsable edits are never persisted.
   */
  lemma {:induction false} PersistedIsLastParsable(lib: JsonLib, st: EditorState, evs: seq<Event>)
    requires forall i :: 0 <= i < |evs| ==> !evs[i].TurnDetectionSelect?
    ensures Get(Run(lib, st, evs).store, ChatUpdateKey)
            == if LastParsable(lib, evs).Some? then LastParsable(lib, evs) else Get(st.store, ChatUpdateKey)
    decreases |evs|
  {
    if evs != [] {
      var init := evs[..|evs| - 1];
      forall i | 0 <= i < |init| ensures !init[i].TurnDetectionSelect? {
        assert init[i] == evs[i];
      }
      PersistedIsLastParsable(lib, st, init);
    }
  }

  /** The mounted editor: the component's state fields, the store it writes, and the library it calls. */
  class EventInput {
    const lib: JsonLib
    const conversationModeDefault: string
    var inputValue: string
    var isValidJson: bool
    var replyMode: ReplyMode
    var store: map<string, string>

    /** The editor's state as a value. */
    ghost function State(): EditorState
      reads this
    {
      EditorState(inputValue, isValidJson, replyMode, store)
    }

    /**
     * Mounting with the optional `defaultValue` over `store`, where
     * `storedTurnDetection` is the conversation type found in the stored
     * configuration.
     */
    constructor (lib: JsonLib, defaultValue: Option<string>, store: map<string, string>, storedTurnDetection: Option<string>)
      ensures this.lib == lib
      ensures State() == Initial(defaultValue, store)
      ensures isValidJson
      ensures conversationModeDefault == InitialConversationMode(storedTurnDetection)
    {
      this.lib := lib;
      this.store := store;
      inputValue := InitialBuffer(defaultValue);
      isValidJson := true;
      replyMode := DecodeReplyMode(Get(store, ReplyModeKey));
      conversationModeDefault := InitialConversationMode(storedTurnDetection);
    }

    /** `handleInputChange`. */
    method HandleInputChange(value: string)
      modifies this`inputValue, this`isValidJson, this`store
      ensures State() == InputChange(lib, old(State()), value)
      ensures inputValue == value && isValidJson == lib.parses(value)
      ensures !lib.parses(value) ==> store == old(store)
    {
      inputValue := value;
      if lib.parses(value) {
        isValidJson := true;
        store := store[ChatUpdateKey := value];
      } else {
        isValidJson := false;
      }
    }

    /** `handleTurnDetectionChange`; the valid flag and the reply mode are outside its frame. */
    method HandleTurnDetectionChange(value: string)
      modifies this`inputValue, this`store
      ensures State() == TurnDetectionChange(lib, old(State()), value)
      ensures !lib.parses(old(inputValue)) ==> inputValue == old(inputValue) && store == old(store)
    {
      if !lib.parses(inputValue) {
        return;
      }
      var updated := lib.setTurnDetection(inputValue, value);
      if updated.Some? {
        inputValue := updated.value;
        store := store[ChatUpdateKey := updated.value];
      }
    }

    /** `handleReplyModeChange`; the buffer and the valid flag are outside its frame. */
    method HandleReplyModeChange(value: ReplyMode)
      modifies this`replyMode, this`store
      ensures State() == ReplyModeChange(old(State()), value)
      ensures DecodeReplyMode(Get(store, ReplyModeKey)) == value
      ensures Get(store, ChatUpdateKey) == Get(old(store), ChatUpdateKey)
    {
      replyMode := value;
      store := store[ReplyModeKey := ReplyModeName(value)];
    }
  }
}
