# UniChat conversation store and send pipeline, in Dafny

UniChat is a cross-language chat client. Each user writes in their own native language. The
counterpart's replies are generated, translated into the user's language, optionally annotated
with a cultural note and optionally spoken aloud. This project models the two parts of the client
that hold logic:

- the **conversation store** (`StoreContext.Store`). It is a class holding the signed-in user,
  the settings record and the ordered conversation list. `SetCurrentUser`, `UpdateSettings`,
  `AddMessage` and `CreateConversation` replace these fields. `GetConversation` is a pure
  lookup. Each new value is a pure function of the old one (`MergeSettings`, `AddMessageTo`,
  `NewConversation`). The class invariant `Valid()` says that conversation ids are distinct and
  that every preview reflects its conversation's last message. Every operation preserves it.
- the **send pipeline** of the chat page (`Chat.ChatScreen.HandleSendMessage`). It rejects blank
  input, clears the input box and appends the user's echo. It then turns the processing
  indicator on, asks the language service for a reply, a translation and (with auto-play) speech,
  appends the counterpart's message, turns the indicator off and plays the clip. The method
  returns the trace of these effects in order. Its contract ties the trace and the new store to
  the pure `PlanTurn`, whose own contract says what the two messages are.

Around these sit the pure helpers:

- the choice of the counterpart (`OtherParticipant`);
- the history handed to reply generation (`Transcript`, `History`);
- the play-button choice (`PlayAudio`);
- the conversation list's names, avatars and ordering (`Home`);
- the records and constant tables (`Types`);
- the JavaScript built-ins the logic relies on (`Prelude`): `||` on strings, `Array.find`,
  `String.trim`, `Array.join`.

The language service is a boundary. Reply generation, translation and speech synthesis are
function values in `LanguageService.Oracles`, so every turn lemma holds for every backend
behaviour. `Unconfigured` and `Failing` reproduce the fallback values the client wrapper
returns:

- with no API key (`services/geminiService.ts:29,102,138`);
- when a call throws (`services/geminiService.ts:63,125,159`).

Identifiers (`uuidv4()`) and clock readings (`Date.now()`) are parameters: `TurnIds`,
`TurnClock` and the `now` arguments. A new conversation id must be fresh, which is what a uuid
provides.

The model follows the code on these points, where one might expect otherwise:

- `updatedAt` is the clock reading at append time (`context/Store.tsx:75`), not the message's
  timestamp.
- Speech is synthesised only when auto-play is on. Nothing forces it for voice turns, and `isVoice`
  is never set.
- There is no recording state machine and no transcription call. The microphone button only
  flips a boolean.
- The send button is not disabled while a turn is processing (`pages/Chat.tsx:229`). Nothing in
  the code prevents a second turn from starting before the first has ended.

## Model

| member | source | states |
|---|---|---|
| Prelude.OrElse | context/Store.tsx:74 | JavaScript `a \|\| b` on an optional string: `a` when it is present and non-empty, else the fallback; a non-empty fallback gives a non-empty result |
| Prelude.FindIndex | context/Store.tsx:97 | the index found satisfies the predicate and every earlier element fails it; none only when no element satisfies it |
| Prelude.Find | context/Store.tsx:97 | `Array.find`: none exactly when no element satisfies the predicate, otherwise the first element that does |
| Prelude.TrimStart | pages/Chat.tsx:33 | the result is a suffix of the input, everything cut off is whitespace, and it does not start with whitespace |
| Prelude.TrimEnd | pages/Chat.tsx:33 | the result is a prefix of the input, everything cut off is whitespace, and it does not end with whitespace |
| Prelude.Trim | pages/Chat.tsx:33 | `text.trim()`: a contiguous part of the input with only whitespace before and after it, neither starting nor ending with whitespace |
| Prelude.TrimEmptyIffBlank | pages/Chat.tsx:33 | `text.trim()` is empty exactly when every character is ECMAScript whitespace or a line terminator |
| Prelude.Join | context/Store.tsx:91 | `join(sep)`: empty for no parts, the part itself for one, otherwise the first part and the separator followed by the rest, ending at least as long as the last part |
| Prelude.JoinSnoc | context/Store.tsx:91 | `join(sep)` of one more part is the earlier join, the separator and that part |
| Types.SupportedLanguagesWellFormed | types.ts:47-58 | ten languages with pairwise-distinct codes and pairwise-distinct names, English first |
| Types.AvatarsWellFormed | types.ts:60-67 | six pairwise-distinct avatar URLs |
| Types.FlagOf | pages/Chat.tsx:132 | a flag is found exactly when some supported language has that name, and it is that language's flag |
| Types.FlagOfEveryLanguage | pages/Chat.tsx:132 | looking up any supported language by name finds that same entry's flag |
| StoreContext.MockUsers | context/Store.tsx:18-22 | the three mock users Aiko (Japanese), Elena (Spanish) and Pierre (French), with distinct ids u2, u3, u4 and avatars 1 to 3 of the avatar table |
| StoreContext.MockUsersSpeakSupportedLanguages | context/Store.tsx:18-22 | every mock user's native language is one of the supported languages, so a flag is found for it |
| StoreContext.DefaultSettings | context/Store.tsx:27-32 | originals shown, auto-play off, cultural notes shown, light theme |
| StoreContext.SeedConversations | context/Store.tsx:34-62 | two one-on-one conversations: c1 with Aiko, holding her one greeting, its preview and its time; c2 with Elena, empty and older |
| StoreContext.SeedsValid | context/Store.tsx:35-62 | the seed conversations have distinct ids and each preview reflects its last message |
| StoreContext.MergeSettings | context/Store.tsx:64-66 | each settings field given in the partial replaces the old value; each absent field keeps it |
| StoreContext.MergeSettingsLaws | context/Store.tsx:64-66 | merging the same partial twice equals merging it once; the empty partial changes nothing; two merges equal one merge of the overlaid partials |
| StoreContext.PreviewOf | context/Store.tsx:74 | the preview is the translated text when it is non-empty, otherwise the original text |
| StoreContext.AddMessageTo | context/Store.tsx:68-80 | same length and order; each conversation with the id gets the message at the end of its messages, the new preview and the append time, with all other fields kept; every other conversation is identical |
| StoreContext.AddMessageUnknownId | context/Store.tsx:69-79 | appending under an id that no conversation has leaves the list unchanged |
| StoreContext.AddMessageKeepsInvariant | context/Store.tsx:69-79 | appending keeps the conversation ids distinct and every preview equal to its last message's preview |
| StoreContext.LookupAfterAddMessage | context/Store.tsx:68-80 | looking the conversation up after the append finds it with the message appended, the earlier messages unchanged |
| StoreContext.NewConversation | context/Store.tsx:84-92 | a fresh conversation has the given id, no messages, preview "New Conversation" and `isGroup` exactly when it has more than one participant; only then does it have a name, the participant names joined by ", " |
| StoreContext.GroupNameGrows | context/Store.tsx:90-91 | adding one more participant to a group names it with the earlier name, ", " and the new participant's name |
| StoreContext.LookupAfterCreate | context/Store.tsx:82-97 | after a conversation is prepended, looking up its id finds it, and looking up any other id gives the same result as before |
| StoreContext.Store.constructor | context/Store.tsx:26-62 | start-up state: nobody signed in; settings showOriginal on, autoPlayVoice off, showCulturalContext on, theme light; the two seed conversations |
| StoreContext.Store.SetCurrentUser | context/Store.tsx:26 | the given user becomes the current user; settings and conversations are unchanged |
| StoreContext.Store.UpdateSettings | context/Store.tsx:64-66 | the settings become the merge of the old settings with the partial; nothing else changes |
| StoreContext.Store.AddMessage | context/Store.tsx:68-80 | the list becomes `AddMessageTo` of the old list; user and settings unchanged; the invariant is kept |
| StoreContext.Store.CreateConversation | context/Store.tsx:82-95 | returns the fresh id; the new conversation is at index 0 with the old list after it, so the length grows by one; the invariant is kept |
| StoreContext.Store.GetConversation | context/Store.tsx:97 | the first conversation with the id, or none exactly when no conversation has it; reads only |
| Chat.OtherParticipant | pages/Chat.tsx:30 | the first participant whose id differs from the user's; otherwise the first participant; none only when there are no participants |
| Chat.Transcript | pages/Chat.tsx:59-62 | one entry per earlier message, in order; the role is `user` exactly when the current user sent it, and the text is its original text |
| Chat.History | pages/Chat.tsx:59-64 | the transcript followed by one final `user` entry carrying the new text |
| Chat.UserEcho | pages/Chat.tsx:39-47 | the echo is sent by the current user in their language; original and translated text both equal the input; no note, audio or voice flag; its preview is the input |
| Chat.ReplyAudio | pages/Chat.tsx:82-87 | audio is present exactly when auto-play is on and synthesis returned a non-empty URL, and it is that URL |
| Chat.CounterpartMessage | pages/Chat.tsx:66-98 | sent by the counterpart in their language; the text is the reply to the history; the translated text and note come from translating that reply from the counterpart's language to the user's, with the note requested per the cultural-context setting; the audio is `ReplyAudio` of the translated text, so present only with auto-play and a non-empty synthesis result |
| Chat.ComposeReply | pages/Chat.tsx:59-98 | the step sequence of the delayed callback produces exactly `CounterpartMessage` of the history |
| Chat.PlanTurn | pages/Chat.tsx:28-48 | a turn happens exactly when a user is signed in, the conversation exists and has participants, and the input is not blank; it consists of the echo and the counterpart's reply |
| Chat.TurnEffects | pages/Chat.tsx:48-107 | the effects of a turn in order: the echo appended, processing on, the reply appended, processing off, and a fifth effect, playing the clip, exactly when the reply has audio |
| Chat.TurnAppendsTwo | pages/Chat.tsx:48-100 | two appends to one id add the echo and then the reply at the end of that conversation; the preview is the reply's, the time is the second append's; length, order and every other conversation are unchanged |
| Chat.NoAudioWithoutAutoPlay | pages/Chat.tsx:82-87 | with auto-play off, the counterpart's message carries no audio, whatever synthesis would return |
| LanguageService.Failing | services/geminiService.ts:61-159 | every call fails and is caught: the reply is "...", the translation echoes its input with the note "Translation failed.", and synthesis gives nothing |
| LanguageService.Unconfigured | services/geminiService.ts:29-138 | no API key: the reply is "...", the translation is "API Key Missing" with no note, and synthesis gives nothing |
| Chat.DegradedTurn | services/geminiService.ts:61-64 | when every service call fails, the reply is "...", its translation echoes "..." with the note "Translation failed.", and there is no audio |
| Chat.UnconfiguredTurn | services/geminiService.ts:29 | with no API key, the reply is "...", its translation is "API Key Missing" with no note, and there is no audio |
| Chat.SeededScenario | pages/Chat.tsx:30-98 | Alex (English) writes "How are you?" in seed conversation c1: the echo shows the text as typed, and the reply comes from Aiko (u2) in Japanese, with no audio under the default settings |
| Chat.PlayAudio | pages/Chat.tsx:112-120 | plays the stored clip when there is one; otherwise synthesises the translated text when there is one and plays the result if non-empty; otherwise does nothing |
| Chat.ReplayUsesStoredAudio | pages/Chat.tsx:104-120 | a reply that came with audio replays that clip without a second synthesis |
| Chat.ChatScreen.constructor | pages/Chat.tsx:16-18 | the page starts with an empty input box and processing off |
| Chat.ChatScreen.SetInputText | pages/Chat.tsx:221 | the input box takes the typed text |
| Chat.ChatScreen.HandleSendMessage | pages/Chat.tsx:32-110 | when no turn happens, there are no effects, the store is unchanged and the input is kept; otherwise the input is cleared, the store gains the echo and then the reply, processing ends off, and the trace is append, processing on, append, processing off, then playback only if the reply has audio |
| Chat.ChatScreen.RunTurn | pages/Chat.tsx:39-107 | the turn's effects in order: echo appended, processing on, reply appended, processing off, clip played only when present; the store becomes the two appends |
| Home.FirstOther | pages/Home.tsx:15 | the first participant whose id is not the current user's; none exactly when there is no such participant |
| Home.ChatName | pages/Home.tsx:12-17 | a group shows its name, or "Group Chat" when the name is absent or empty; a one-on-one shows the other participant's name, or "Unknown"; the result is never empty |
| Home.ChatAvatar | pages/Home.tsx:19-23 | a group shows the fixed group picture; a one-on-one shows the other participant's avatar, or "" when there is none |
| Home.RowOf | pages/Home.tsx:52-68 | a list row shows the conversation's display name (never empty), its avatar, its stored preview and its time |
| Home.Rows | pages/Home.tsx:51-69 | one row per conversation, in store order |
| Home.HomeView | pages/Home.tsx:45-51 | the empty state exactly when there are no conversations; otherwise the rows in store order with no re-sorting |

## Left out

- Asynchronous timing: the 1500 ms `setTimeout` and the `await` suspension points. A turn is one
  straight-line sequence. Two turns overlapping on the same page are therefore not modelled,
  although the code does not prevent them.
- React rendering and re-render semantics. The history is built from the messages present before
  the echo, which is what the render-time snapshot holds.
- Device and browser effects: `Audio.play()` is an `AudioPlayed` effect, not playback. Auto-scroll
  and the microphone press/hold flag are left out.
- `services/geminiService.ts`: prompts, model names and JSON parsing are left out. Only the
  fallback values it returns are modelled. `transcribeAudio` is never called by the chat page.
- Chat.PlanTurn: a conversation with no participants makes the page fail while rendering, so no
  send can happen there. The model treats that case as a turn that does not happen.
- Routing (`App.tsx`), styling (`components/Layout.tsx`) and the onboarding and settings forms
  (`pages/Onboarding.tsx`, `pages/Settings.tsx`). Their only logic is a blank-name guard and calls
  to `setCurrentUser` and `updateSettings`, which are modelled in the store.
- StoreContext.Store.CreateConversation: requires that the new id is not already in the list. The code relies
  on uuid uniqueness instead.
