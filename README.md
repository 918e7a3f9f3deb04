# Chat session and settings stores, modelled in Dafny

This project models the client-side state core of a single-user Gemini chat
application:

- the **chat store** (`src/stores/chat.ts`) holds the open session
  `currentSession` and the list `sessions`. It creates, loads, saves, deletes
  and clears sessions through a session database, and it appends, edits and
  clears messages of the open session;
- the **settings store** (`src/stores/settings.ts`) holds four bounded
  generation parameters. It has setters that ignore out-of-range values, a
  reset, a load that adopts a stored payload only if all of it validates, and
  a save.

Files:

- `wrappers.dfy` holds `Option`, `Outcome` and `Result`.
- `types.dfy` holds the records of `src/types/index.ts`: `ChatMessage`,
  `ChatSession` and `AppSettings`.
- `lists.dfy` holds the array operations that `chat.ts` uses: `findIndex`
  (`FindIndex`), `filter` (`Without`) and the newest-first `sort`
  (`SortByRecency`, a stable insertion sort). Each one is specified by what it
  computes.
- `db.dfy` holds the contract of the session database of
  `src/services/dbService.ts`: a table keyed by session id, the result of a
  get, and what a listing may be.
- `chat.dfy` holds the title rule, the append rule and the class
  `ChatStore`.
- `settings.dfy` holds the validator, the defaults and the class
  `SettingsStore`.

Modelling choices:

- **Values, not shared objects.** Sessions and messages are values. `current`
  and the list entries are separate copies. A list entry is brought up to
  date with `current` only by `SaveCurrentSession`, which writes a copy of
  `current` into the list. `UpdateSessionTitle` writes the title to both.
- **The database is a ghost field.** `ChatStore.store` is a ghost map that
  stands in for the database. `put`, `delete` and `clear` are map updates. The
  two reads become parameters. `LoadSessions` receives what `getAllSessions()`
  resolved to, and a precondition says it is a listing of the table: every row
  exactly once, newest first. `LoadSession` receives what `getSession(id)`
  resolved to, and a precondition says it is the row or nothing.
- **Randomness, time and failure are parameters.** `nanoid()` becomes a
  caller-supplied id, with a precondition that the id is fresh. `new Date()`
  becomes a `nat` clock reading. Each database call gets a `fail` flag, and a
  failure is returned as `Failed(...)` or `Err(...)`. The operations that
  persist first (create, delete, clear) leave memory untouched on failure.
- **Derived views are plain functions of the state.** `HasCurrentSession`,
  `CurrentMessages` and `SessionCount` model `hasCurrentSession`,
  `currentMessages` and `sessionCount`.
- **The class invariant.** `ChatStore.Valid()` requires:
  - every table row is stored under its own id;
  - every session is well formed: `isEditable` is true and its message ids
    are distinct;
  - list ids are distinct;
  - every listed session and the open session has a row in the table under
    its id. Its contents may differ from that row until the next save, as in
    the source.

  Every operation preserves `Valid()`.

- **Settings.** The four settings fields are `real`, because the code only
  compares them. A load receives what `JSON.parse` produced (`RawSettings`:
  not an object, or an object whose four properties are numbers or not),
  and a flag for whether reading or parsing threw. A save returns the record
  that storage receives.

Three behaviours of the code that the model keeps:

- `createNewSession` reads the clock twice, once for `createdAt` and once for
  `updatedAt` (`src/stores/chat.ts:36-37`). The model therefore takes two clock
  readings and does not claim that the two timestamps are equal.
- `loadSession` rethrows a missing session and a failed read as the same error
  (`src/stores/chat.ts:58-63`). The model has one error, `LoadSessionFailed`.
- `loadSettings` falls back to the defaults only when reading or parsing
  throws (`src/stores/settings.ts:28-31`). An absent payload, or one that fails
  validation, leaves the previous settings in place, and those need not be the
  defaults.

## Model

| member | source | states |
|---|---|---|
| Lists.FindIndex | src/stores/chat.ts:113-114 | the result is the first position whose element has the id, and it is None exactly when no element has it |
| Lists.Without | src/stores/chat.ts:139 | the result holds exactly the sessions of the list whose id differs; it is never longer, and it is the list itself when no entry has the id |
| Lists.WithoutAppend | src/stores/chat.ts:139 | filtering distributes over concatenation, so the relative order of the kept entries is preserved |
| Lists.WithoutKeepsDistinct | src/stores/chat.ts:139 | filtering a list with distinct ids gives a list with distinct ids |
| Lists.WithoutKeepsSorted | src/stores/chat.ts:139 | filtering a newest-first list keeps it newest first |
| Lists.Insert | src/stores/chat.ts:80 | inserting adds exactly the one session: the multiset grows by it and membership is the old list plus it |
| Lists.InsertKeepsSorted | src/stores/chat.ts:80 | inserting into a newest-first list keeps it newest first |
| Lists.SortByRecency | src/stores/chat.ts:80 | the sorted list is a permutation of the input, ordered by `updatedAt` non-increasing |
| Lists.InsertKeepsDistinct | src/stores/chat.ts:80 | inserting a session with a new id into a list with distinct ids keeps the ids distinct |
| Lists.SortKeepsDistinct | src/stores/chat.ts:80 | sorting keeps list ids distinct |
| Chat.DerivedTitle | src/stores/chat.ts:102-104 | the title is at most 33 characters; it is the content when the content has at most 30 characters, and otherwise the first 30 characters followed by `...` |
| Chat.WithMessage | src/stores/chat.ts:92-106 | an append adds the message last and changes nothing but messages and title; the title changes only for a user message appended to an empty session, and then it is the derived title |
| Chat.AppendAllKeepsOrder | src/stores/chat.ts:98-106 | a sequence of appends adds the messages in call order, and once a session has a message, no append changes its title |
| Chat.ConversationTitle | src/stores/chat.ts:100-106 | after any conversation appended to an empty session, the messages are the calls in order; the title is derived from the first message when that message is a user message, and is the old title otherwise |
| Chat.PutKeepsTable | src/stores/chat.ts:73 | writing a well-formed session keeps the table keyed by id, and keeps every listed session backed by a row |
| Chat.ReplaceAndSortKeepsList | src/stores/chat.ts:76-81 | replacing an entry by a session with the same id and re-sorting keeps list ids distinct and keeps every entry backed by a row |
| Chat.ChatStore.HasCurrentSession | src/stores/chat.ts:170 | true exactly when a session is open |
| Chat.ChatStore.CurrentMessages | src/stores/chat.ts:171 | the open session's messages, and the empty sequence when no session is open |
| Chat.ChatStore.SessionCount | src/stores/chat.ts:172 | the number of entries in the session list |
| Chat.ChatStore.constructor | src/stores/chat.ts:9-12 | the store starts with no open session and an empty list, over the existing table |
| Chat.ChatStore.LoadSessions | src/stores/chat.ts:21-28 | on success the list is the database's listing, which is newest first; on failure it raises and the list is unchanged; the open session is never touched |
| Chat.ChatStore.CreateNewSession | src/stores/chat.ts:31-50 | on success the new session has the fresh id, the placeholder title, no messages and `isEditable`; it is written to the table, becomes `sessions[0]` with the old list as `sessions[1..]`, and becomes the open session; its id is returned, and the session count grows by one; the list stays newest first when the clock is not behind any entry; on failure it raises and nothing changes |
| Chat.ChatStore.LoadSession | src/stores/chat.ts:53-65 | the stored row becomes the open session; a missing id or a failed read raises and leaves the open session unchanged; the list is never touched |
| Chat.ChatStore.SaveCurrentSession | src/stores/chat.ts:68-86 | with no open session nothing changes; otherwise `updatedAt` becomes the clock reading even if the write fails; on success the row is written, and if the list holds the id the new list is a permutation of the old one with that entry replaced, newest first; otherwise the list is unchanged |
| Chat.ChatStore.AddMessage | src/stores/chat.ts:89-107 | with no open session nothing changes; otherwise the open session gets the new message (fresh id, clock timestamp, given type and content) by the append rule, so the current messages grow by exactly that message; list and table are untouched |
| Chat.ChatStore.EditMessage | src/stores/chat.ts:110-121 | with no open session, or no message with the id, nothing changes; otherwise, where i is the first index with the id, there are exactly i+1 messages, the first i are unchanged, message i keeps id, type and timestamp and has the new content, and the title and timestamps are unchanged |
| Chat.ChatStore.UpdateSessionTitle | src/stores/chat.ts:124-133 | the open session is retitled exactly when its id matches; the first list entry with the id is retitled; every other entry and field is unchanged |
| Chat.ChatStore.DeleteSession | src/stores/chat.ts:136-149 | on success the row is deleted, the list is the old list filtered by the id, and the open session is closed exactly when it had the id; a newest-first list stays newest first; an absent id deletes nothing and does not fail; on failure it raises and nothing changes |
| Chat.ChatStore.ClearAllSessions | src/stores/chat.ts:152-161 | on success the table and the list are empty, no session is open, the session count is 0 and the current messages are empty; on failure it raises and nothing changes |
| Chat.ChatStore.ClearCurrentSessionMessages | src/stores/chat.ts:164-167 | only the open session's messages are emptied, so the current messages are empty; the title and everything else survive |
| Settings.Adopt | src/stores/settings.ts:24-25 | a payload that passed validation is adopted as valid settings that serialize back to that payload |
| Settings.IsValidSettings | src/stores/settings.ts:46-63 | accepts only an object whose four properties are numbers, and such a record exactly when temperature, maxOutputTokens, topP and topK are all within their ranges |
| Settings.SaveLoadRoundTrip | src/stores/settings.ts:22-25 | adopting the serialized record of valid settings gives those settings back |
| Settings.DefaultsAreValid | src/stores/settings.ts:7-12 | the defaults (0.6, 2000, 0.8, 40) are valid |
| Settings.OutOfRangeRejected | src/stores/settings.ts:50-52 | the default record is accepted, and the same record with temperature 3 is rejected as a whole |
| Settings.SettingsStore.constructor | src/stores/settings.ts:15 | the store starts with the defaults |
| Settings.SettingsStore.LoadSettings | src/stores/settings.ts:18-33 | a valid payload becomes the settings; an absent or invalid payload leaves the previous settings; a read or parse failure resets to the defaults; valid settings stay valid |
| Settings.SettingsStore.SaveSettings | src/stores/settings.ts:36-43 | on failure it raises; otherwise it returns the serialization of the current settings, whatever they are; that record validates exactly when the settings are valid, and loading it back gives the settings |
| Settings.SettingsStore.UpdateTemperature | src/stores/settings.ts:66-70 | the temperature is set only when 0 ≤ v ≤ 2; otherwise the settings are unchanged; valid settings stay valid |
| Settings.SettingsStore.UpdateMaxOutputTokens | src/stores/settings.ts:72-76 | maxOutputTokens is set only when 0 < v ≤ 8192; otherwise the settings are unchanged; valid settings stay valid |
| Settings.SettingsStore.UpdateTopP | src/stores/settings.ts:78-82 | topP is set only when 0 ≤ v ≤ 1; otherwise the settings are unchanged; valid settings stay valid |
| Settings.SettingsStore.UpdateTopK | src/stores/settings.ts:84-88 | topK is set only when 1 ≤ v ≤ 100; otherwise the settings are unchanged; valid settings stay valid |
| Settings.SettingsStore.ResetSettings | src/stores/settings.ts:91-93 | the settings become the defaults, whatever they were, and are valid |

## Left out

- Object aliasing in the chat store is not modelled. The model keeps
  values: a list entry changes only at a save, a title update or a delete.
  The source shares objects, in two different ways.
  - After `createNewSession` (src/stores/chat.ts:43-44) the list entry is the
    open session itself, so every write to the open session shows up in
    `sessions[0]` at once. This covers the stamp at :72, the push at :98,
    the title at :105, the content edit at :117, the truncation at :120 and
    the clear at :166.
  - The stamp at :72 happens before the write at :73. So on a failed save the
    source's list entry still carries the new `updatedAt`, while the
    model's `SaveCurrentSession` leaves `sessions` unchanged.
  - After a save, the list entry is a shallow copy (:78) that shares only the
    `messages` array and its message objects. Only the push at :98 and the
    content edit at :117 show up in it. The title, the stamp, the truncation
    and the clear replace fields of the open session and do not.
- Interleaving at `await` points is not modelled. Overlapping saves or deletes
  can race in the source; the model treats each operation as atomic.
- `nanoid()` and `new Date()` are not modelled. They become caller-supplied
  fresh ids and `nat` clock readings. With no clock model, nothing is said
  about whether a message timestamp is at least the session's `createdAt`.
- The database engine (Dexie over IndexedDB) is left out. Its tie order among
  equal `updatedAt` values and its `'++id'` schema are not modelled, and
  failures are flags.
- The AI client (`src/services/geminiService.ts`) is left out: it is a network
  wrapper with no logic of its own.
- Error message text and `console.error` logging are left out. Errors are
  constructors of `ChatError` and `SettingsError`.
- `currentInput`, `isGenerating` and the `APIRateLimit` type are left out. They
  carry no logic in this code.
- Vue/Pinia reactivity is left out. Derived views are plain functions.
- `Array.prototype.sort` is modelled here by a stable insertion sort.
  - `SaveCurrentSession` does not pin down the order of entries with equal
    `updatedAt`. It promises only a newest-first permutation, which is what
    the comparator guarantees.
- DerivedTitle: counts characters, not the UTF-16 code units that
  `length` and `substring` count. A character outside the Basic Multilingual
  Plane counts as one here and two in the source, so the source can split it.
- `localStorage` and `JSON` handling are abstracted:
  - the parsed value arrives as `RawSettings`;
  - a failed read or parse arrives as a flag;
  - `saveSettings` returns the record instead of writing it to a slot.
- Chat.ChatStore.AddMessage: the argument is reduced to its type and its
  content. The source builds the message with the argument spread last
  (src/stores/chat.ts:92-96), and structural typing lets a caller pass an
  object with more properties. An argument's own `id` or `timestamp` then
  replaces the fresh id or the clock reading, and its other properties are
  copied along. None of this is modelled. Such a caller could also repeat a
  message id, which the model's invariant rules out.
- Settings.Adopt: does not model extra properties of a stored object. The
  spread `{ ...defaultSettings, ...parsed }` copies them along in the source.
- Settings values are modelled as reals. Their floating-point behaviour is not
  modelled, because the code performs only range comparisons.
- The save-then-load round trip of a session gets no separate lemma. It
  follows from the two contracts: `SaveCurrentSession` writes the stamped
  session to the table, and `LoadSession` returns the table's row.
