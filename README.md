# Live configuration panels of the meeting-join front end

This project models, in Dafny, the two stateful React components of the
meeting-join front end:

- **`AudioConfig`** (module `AudioSettings`): the audio-capture settings panel.
  It holds eight settings: denoiser mode and level, noise suppression, echo
  cancellation, automatic gain control, development mode, default mute and the
  Huawei-mobile echo workaround. Two of them start from the three platform
  probes: noise suppression from the denoiser-support and mobile probes, Huawei
  mobile from the HarmonyOS probe. When a capture client is attached, the
  denoiser mode and level and the noise-suppression, echo-cancellation and AGC
  flags that its configuration supplies are copied over; the other three
  settings are never taken from the client. While the client is recording, denoiser mode and level changes
  are pushed to it live. The checkboxes are greyed out according to the
  recording and denoiser-support flags. The two denoiser radio groups are never
  greyed out; they are hidden while noise suppression is on.
  `getSettings` exports the eight values.
  The panel is the class `AudioConfig`. The client is the class `CaptureClient`,
  which keeps a log of the `setDenoiserMode` / `setDenoiserLevel` calls it
  receives, so the handlers' contracts can say "called exactly once, only while
  recording".
- **`EventInput`** (module `EventConfig`): the chat-update document editor.
  It holds a raw text buffer and a valid/invalid indicator. The text is persisted
  under the store key `chatUpdate` only when it parses. A conversation-mode
  selector rewrites `data.turn_detection.type` inside the buffer. A reply-mode
  selector is stored on its own under `replyMode`. The component is the class
  `EventInput`, whose methods are proved against the pure transition functions
  `InputChange`, `TurnDetectionChange` and `ReplyModeChange`. Lemmas about those
  functions, and about `Run` (any sequence of user actions), state what the
  editor guarantees.

Browser storage is an explicit `map<string, string>` field. The three platform
probes are constructor inputs. The JSON library is a `JsonLib` value holding two
functions about which nothing is assumed. `parses` stands for `JSON.parse`
returning. `setTurnDetection` stands for `setValueByPath` followed by
`JSON.stringify(…, null, 2)`, and returns `None` when either call throws.

Points where the code behaves differently from what one might expect of these
panels (the model follows the code):

- The live denoiser push (`audio-config/index.tsx:111`, `:118`) is gated only on
  "client present and recording", not on the denoiser being supported.
- When the client reference changes, the new client's configuration is overlaid
  on the *current* settings. The panel is not reset to its defaults, so a field
  the old client supplied and the new one does not keeps the old client's value
  (`AudioSettings.ReplacementKeepsEarlierClientValue`).
- The valid flag starts `true` whatever the default buffer holds. A successful
  conversation-mode write does not set the flag; it leaves it as it was. It
  can only succeed when the buffer parses, and then the flag is already valid
  (`EventConfig.RunKeepsFlagSound`).
- A conversation-mode write on a malformed buffer is caught and logged. Nothing
  reaches the caller and nothing changes.

## Model

| member | source | states |
|---|---|---|
| `Wrappers.Get` | src/components/event-input/index.tsx:17 | a store lookup is `Some` of the stored string exactly when the key is present, `None` when it is missing |
| `AudioSettings.Overlay` | src/components/audio-config/index.tsx:61-88 | each of mode, level, noise suppression, echo cancellation and AGC takes the client's value when its configuration supplies one (an explicit `false` included) and keeps the local value otherwise; debug, default mute and Huawei mobile never change |
| `AudioSettings.OverlayIdempotent` | src/components/audio-config/index.tsx:61-88 | overlaying the same configuration twice in a row, with no edit in between, gives the same settings as once |
| `AudioSettings.OverlayNothing` | src/components/audio-config/index.tsx:66-78 | a client whose configuration supplies no field (both parts missing) leaves every setting unchanged |
| `AudioSettings.OverlayComposes` | src/components/audio-config/index.tsx:61-88 | attaching two clients in turn equals one overlay where the later client's supplied fields win |
| `AudioSettings.OverlayAllIsOneOverlay` | src/components/audio-config/index.tsx:61-88 | after any sequence of client replacements, each field holds the value of the most recent client that supplied it, else its value from before the first client |
| `AudioSettings.ReplacementKeepsEarlierClientValue` | src/components/audio-config/index.tsx:82-84 | a replacement client that supplies nothing does not restore echo cancellation that an earlier client turned off |
| `AudioSettings.CaptureClient.CurrentStatus` | src/components/audio-config/index.tsx:104-107 | the status read is the client's own for a `PcmRecorder` and its `recorder`'s for the other client kinds |
| `AudioSettings.CaptureClient.SetDenoiserMode` | src/components/audio-config/index.tsx:112 | the client records exactly one `setDenoiserMode(mode)` call |
| `AudioSettings.CaptureClient.SetDenoiserLevel` | src/components/audio-config/index.tsx:119 | the client records exactly one `setDenoiserLevel(level)` call |
| `AudioSettings.ControlDisabled` | src/components/audio-config/index.tsx:123-208 | the noise-suppression checkbox is disabled iff the denoiser is unsupported or capture is recording; debug, default mute, Huawei, echo cancellation and AGC are disabled iff recording; the denoiser radio groups never are |
| `AudioSettings.ControlShown` | src/components/audio-config/index.tsx:222 | the denoiser mode and level controls are rendered iff noise suppression is off; all others always |
| `AudioSettings.OnlyDenoiserOperableWhileRecording` | src/components/audio-config/index.tsx:109-123 | while recording, a control can be operated iff it is a denoiser control and noise suppression is off, matching the two fields that are pushed live |
| `AudioSettings.AudioConfig.constructor` | src/components/audio-config/index.tsx:43-59 | with no client: mode NSNG, level SOFT, noise suppression = unsupported or mobile, echo cancellation and AGC on, debug and default mute off, Huawei mobile = HarmonyOS probe |
| `AudioSettings.AudioConfig.ClientChanged` | src/components/audio-config/index.tsx:61-88 | the client reference is recorded; when it differs from the attached one, a present client's configuration is overlaid on the current settings and an absent one changes no setting; the same reference again changes no setting |
| `AudioSettings.AudioConfig.GetSettings` | src/components/audio-config/index.tsx:91-102 | returns exactly the eight current field values, untransformed |
| `AudioSettings.AudioConfig.IsRecording` | src/components/audio-config/index.tsx:104-107 | false with no client; otherwise whether the status of the client (a `PcmRecorder`) or of its recorder (other kinds) is `'recording'` |
| `AudioSettings.AudioConfig.Disabled` | src/components/audio-config/index.tsx:123 | `disabled` is the noise-suppression control's gate: unsupported or recording |
| `AudioSettings.AudioConfig.OperableWhileRecording` | src/components/audio-config/index.tsx:123-222 | while the attached client records, a control of this panel can be operated iff it is a denoiser radio group and noise suppression is off |
| `AudioSettings.AudioConfig.HandleDenoiseModeChange` | src/components/audio-config/index.tsx:109-114 | the local mode becomes the value and no other setting changes; `setDenoiserMode(value)` is appended to the client's log exactly once if a client is present and recording, and nothing is appended otherwise; the client's status is untouched |
| `AudioSettings.AudioConfig.HandleDenoiseLevelChange` | src/components/audio-config/index.tsx:116-121 | the same for the level and `setDenoiserLevel(value)` |
| `AudioSettings.AudioConfig.SetDebug` | src/components/audio-config/index.tsx:135 | sets only the debug field |
| `AudioSettings.AudioConfig.SetAudioMutedDefault` | src/components/audio-config/index.tsx:149 | sets only the default-mute field |
| `AudioSettings.AudioConfig.SetIsHuaweiMobile` | src/components/audio-config/index.tsx:163 | sets only the Huawei-mobile field |
| `AudioSettings.AudioConfig.SetNoiseSuppression` | src/components/audio-config/index.tsx:184 | sets only the noise-suppression field |
| `AudioSettings.AudioConfig.SetEchoCancellation` | src/components/audio-config/index.tsx:196 | sets only the echo-cancellation field |
| `AudioSettings.AudioConfig.SetAutoGainControl` | src/components/audio-config/index.tsx:208 | sets only the AGC field |
| `AudioSettings.NoiseSuppressionRoundTrip` | src/components/audio-config/index.tsx:181-231 | turning noise suppression on then off keeps denoiser mode and level and every other field (only `noiseSuppression` is in the frame), and the denoiser controls are shown again |
| `EventConfig.DecodeReplyMode` | src/components/event-input/index.tsx:16-20 | the reply mode is `sentence` iff the stored string is exactly `'sentence'`, and `stream` otherwise, a missing key included |
| `EventConfig.ReplyModeRoundTrip` | src/components/event-input/index.tsx:65-68 | decoding the stored name of a reply mode gives that mode back |
| `EventConfig.InitialBuffer` | src/components/event-input/index.tsx:23 | the initial buffer is `defaultValue`, or empty when it is absent (or empty) |
| `EventConfig.InitialConversationMode` | src/components/event-input/index.tsx:74 | the conversation selector starts at the stored `data.turn_detection.type` when it is a non-empty string, and at `'server_vad'` otherwise; never empty |
| `EventConfig.RawEditOutcome` | src/components/event-input/index.tsx:32-45 | a raw edit always sets the buffer to the text; if it parses, the flag is valid and `chatUpdate` holds the text verbatim, with other keys untouched; if not, the flag is invalid and the store is unchanged |
| `EventConfig.RawEditIdempotent` | src/components/event-input/index.tsx:32-45 | the same raw edit applied twice leaves buffer, flag and store as applying it once |
| `EventConfig.TurnDetectionOnUnparsableIsNoOp` | src/components/event-input/index.tsx:47-62 | a conversation-mode change on a buffer that does not parse leaves the whole state unchanged |
| `EventConfig.TurnDetectionOnEmptyDefaultIsNoOp` | src/components/event-input/index.tsx:47-62 | a conversation-mode change right after mounting with an absent or empty default value changes nothing, given that the empty string does not parse |
| `EventConfig.TurnDetectionOutcome` | src/components/event-input/index.tsx:50-58 | a successful conversation-mode change puts the same re-serialised text in the buffer and under `chatUpdate`, and leaves the flag, the reply mode and all other keys unchanged |
| `EventConfig.ReplyModeOutcome` | src/components/event-input/index.tsx:65-68 | a reply-mode change sets the shown mode and stores exactly its name (`'stream'` or `'sentence'`) under `replyMode`, which decodes back to it, and leaves buffer, flag and every other key, `chatUpdate` included, unchanged |
| `EventConfig.RunWritesOnlyItsKeys` | src/components/event-input/index.tsx:32-68 | across any sequence of user actions, no store key other than `chatUpdate` and `replyMode` is written |
| `EventConfig.RunKeepsFlagSound` | src/components/event-input/index.tsx:24-62 | from mounting on, the flag never shows invalid for a buffer that parses |
| `EventConfig.RunKeepsReplyModeInSync` | src/components/event-input/index.tsx:16-68 | from mounting on, the reply mode shown always equals the one decoded from the store |
| `EventConfig.RunKeepsPersistedIsBuffer` | src/components/event-input/index.tsx:32-62 | for every run that begins with a raw edit, or from a state where a valid flag already means `chatUpdate` equals the buffer, that agreement holds at the end |
| `EventConfig.RunAppend` | src/components/event-input/index.tsx:32-68 | running two sequences of user actions one after the other is running their concatenation |
| `EventConfig.PersistedIsBufferAfterRawEdit` | src/components/event-input/index.tsx:32-62 | once a raw edit has happened, whatever came before and after it, whenever the flag shows valid the persisted `chatUpdate` is exactly the buffer |
| `EventConfig.PersistedIsLastParsable` | src/components/event-input/index.tsx:32-45 | without conversation-mode changes, the persisted document is the last typed text that parsed, or the earlier stored one when none did; unparsable text is never persisted |
| `EventConfig.EventInput.constructor` | src/components/event-input/index.tsx:22-30 | mounting gives the initial buffer, a valid flag regardless of content, the reply mode decoded from the store, and the conversation-mode default |
| `EventConfig.EventInput.HandleInputChange` | src/components/event-input/index.tsx:32-45 | the new state is `InputChange` of the old one: buffer = text, flag = parses, store changed only when it parses |
| `EventConfig.EventInput.HandleTurnDetectionChange` | src/components/event-input/index.tsx:47-62 | the new state is `TurnDetectionChange` of the old one; a buffer that does not parse leaves buffer and store unchanged; the flag and reply mode are outside the frame |
| `EventConfig.EventInput.HandleReplyModeChange` | src/components/event-input/index.tsx:65-68 | the new state is `ReplyModeChange` of the old one; the stored reply mode decodes to the value and `chatUpdate` is unchanged |

## Left out

- Rendering, antd components, tooltips, the page layout and navigation (`src/App.tsx`), and the conferencing iframe wrapper (`src/pages/jitsi-meeting/index.tsx`): no state logic worth a model.
- React effect scheduling and reference-identity dependency tracking: a change of the client reference is the explicit call `ClientChanged`. It overlays only when the reference differs from the attached one. Passing the same reference again changes nothing, even if the user has edited settings since.
- `AudioSettings.AudioConfig.IsRecording` is read at the moment a handler runs. In the component it is the value computed at the last render, so a status change since then without a re-render is not modelled.
- The platform probes (`checkDenoiserSupport`, `isMobile`, `isHarmonOS`) are constructor inputs.
- The audio pipeline behind `setDenoiserMode` / `setDenoiserLevel`: only the calls are recorded. A client's `config` is taken to be present, and a non-`PcmRecorder` client is taken to have a `recorder`, as the code dereferences both unguarded.
- `AudioSettings.Overlay` treats a supplied denoiser mode or level as truthy, i.e. the enum values are non-empty strings. A falsy enum value would be ignored by `if (mode)` and is not modelled.
- `JSON.parse`, `setValueByPath` and `JSON.stringify` are opaque: nothing is assumed about which texts parse, what the rewritten document looks like, or whether intermediate objects are created. Concrete examples such as the rewritten form of `{"data":{}}` are therefore not modelled.
- `EventConfig.EventInput.HandleTurnDetectionChange` takes a string. The source also types the value as possibly `undefined`, but the selector offers no way to clear it.
- The `console.error` logging on a failed conversation-mode write.
- `localStorage.setItem` is assumed never to throw (a full quota, for one); the store write is a map update that always succeeds. In the source a throw changes three things, none of them modelled:
  - at `event-input/index.tsx:41` the `catch` flags parsable text invalid, so `RunKeepsFlagSound` relies on this assumption;
  - at `:58` the buffer has already been rewritten at `:57` while `chatUpdate` stays stale, so `TurnDetectionOutcome` and `RunKeepsPersistedIsBuffer` rely on it;
  - at `:67` there is no `try`, so the throw reaches the caller after the reply mode was set.
- `getConfig` from `src/utils/config` is not part of this model. The stored conversation type it yields is a constructor input of `EventInput`.
- Which value the uncontrolled conversation-mode selector displays after the user picks one is not modelled; only its starting value is.
- Concurrent writes to the store from other tabs.
