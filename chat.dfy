/**
  The chat session store (src/stores/chat.ts): the open session, the list of
  known sessions, and every operation on sessions and messages.

  Sessions are values.  `current` and the entries of `sessions` are separate
  copies; an entry of the list is brought up to date with `current` only by
  `SaveCurrentSession` (and by `UpdateSessionTitle`, which writes both).
  Identifiers (`nanoid()`), clock readings (`new Date()`) and the success or
  failure of each database call are parameters of the operations.
 */
module Chat {
  import opened Wrappers
  import opened Types
  import opened Lists
  import Db

  /** The placeholder title of a new session. */
  const DefaultTitle: string := "新しいチャット"

  /** A derived title keeps at most this many characters of the message. */
  const TitleLength: nat := 30

  const Ellipsis: string := "..."

  /** The errors the store raises, one per operation that calls the database. */
  datatype ChatError =
    | LoadSessionsFailed
    | CreateFailed
    | LoadSessionFailed
    | SaveFailed
    | DeleteFailed
    | ClearFailed

  /** The title taken from the first user message. */
  function DerivedTitle(content: string): (t: string)
    ensures |t| <= TitleLength + |Ellipsis|
    ensures |content| <= TitleLength ==> t == content
    ensures |content| > TitleLength ==>
      |t| == TitleLength + |Ellipsis| && t[..TitleLength] == content[..TitleLength] && t[TitleLength..] == Ellipsis
  {
    if |content| > TitleLength then content[..TitleLength] + Ellipsis else content
  }

  /**
    The session after `addMessage` appends `m`: the message goes last, and the
    title is derived from it exactly when it is a user message and the first one.
   */
  function WithMessage(s: ChatSession, m: ChatMessage): (r: ChatSession)
    ensures r == s.(messages := s.messages + [m], title := r.title)
    ensures r.title != s.title ==> m.kind == User && s.messages == []
    ensures m.kind == User && s.messages == [] ==> r.title == DerivedTitle(m.content)
  {
    var messages := s.messages + [m];
    if m.kind == User && |messages| == 1 then s.(messages := messages, title := DerivedTitle(m.content))
    else s.(messages := messages)
  }

  /** The session after appending each of `ms` in turn. */
  function AppendAll(s: ChatSession, ms: seq<ChatMessage>): (r: ChatSession)
    decreases |ms|
  {
    if ms == [] then s else AppendAll(WithMessage(s, ms[0]), ms[1..])
  }

  /** Appending keeps call order, and once a session has a message its title is fixed. */
  lemma {:induction false} AppendAllKeepsOrder(s: ChatSession, ms: seq<ChatMessage>)
    ensures AppendAll(s, ms) == s.(messages := s.messages + ms, title := AppendAll(s, ms).title)
    ensures s.messages != [] ==> AppendAll(s, ms).title == s.title
    decreases |ms|
  {
    if ms != [] {
      AppendAllKeepsOrder(WithMessage(s, ms[0]), ms[1..]);
      assert s.messages + [ms[0]] + ms[1..] == s.messages + ms;
    }
  }

  /**
    A conversation appended to an empty session: the messages are the calls in
    order, and the title is derived from the first message if and only if it
    is a user message; no later append changes it.
   */
  lemma {:induction false} ConversationTitle(s: ChatSession, ms: seq<ChatMessage>)
    requires s.messages == [] && ms != []
    ensures AppendAll(s, ms).messages == ms
    ensures AppendAll(s, ms).title == if ms[0].kind == User then DerivedTitle(ms[0].content) else s.title
  {
    AppendAllKeepsOrder(WithMessage(s, ms[0]), ms[1..]);
    assert [ms[0]] + ms[1..] == ms;
  }

  /** Invariant of every session the store holds. */
  ghost predicate WellFormed(s: ChatSession) {
    s.isEditable && Distinct(s.messages, MessageId)
  }

  /** Every session of `s` is well formed and has a row in `table` under its id. */
  ghost predicate Backed(s: seq<ChatSession>, table: Db.Table) {
    forall j :: 0 <= j < |s| ==> WellFormed(s[j]) && s[j].id in table
  }

  /** The rows of the table are stored under their own identifiers and well formed. */
  ghost predicate ValidTable(table: Db.Table) {
    Db.KeyedById(table) && forall k :: k in table ==> WellFormed(table[k])
  }

  /** Writing a well-formed session keeps the table valid and every list backed. */
  lemma PutKeepsTable(table: Db.Table, s: seq<ChatSession>, saved: ChatSession)
    requires ValidTable(table) && Backed(s, table) && WellFormed(saved)
    ensures ValidTable(table[saved.id := saved]) && Backed(s, table[saved.id := saved])
  {
  }

  /** Replacing an entry by a session with its identifier and re-sorting keeps the list invariant. */
  lemma ReplaceAndSortKeepsList(s: seq<ChatSession>, i: nat, saved: ChatSession, table: Db.Table)
    requires i < |s| && s[i].id == saved.id
    requires Distinct(s, SessionId) && Backed(s, table) && WellFormed(saved)
    ensures Distinct(SortByRecency(s[i := saved]), SessionId)
    ensures Backed(SortByRecency(s[i := saved]), table)
  {
    var replaced := s[i := saved];
    assert Distinct(replaced, SessionId);
    SortKeepsDistinct(replaced);
    var sorted := SortByRecency(replaced);
    forall j | 0 <= j < |sorted|
      ensures WellFormed(sorted[j]) && sorted[j].id in table
    {
      assert sorted[j] in multiset(replaced);
      var k :| 0 <= k < |replaced| && replaced[k] == sorted[j];
    }
  }

  class ChatStore {
    /** `currentSession`: the open session, if any. */
    var current: Option<ChatSession>
    /** `sessions`: the known sessions. */
    var sessions: seq<ChatSession>
    /** The database table the store persists to. */
    ghost var store: Db.Table

    /**
      Every session in the list and the open session has a row in the table
      under its id (its contents may differ from the row until the next save),
      list identifiers are distinct, and every session is well formed.
     */
    ghost predicate Valid()
      reads this
    {
      && ValidTable(store)
      && Distinct(sessions, SessionId)
      && Backed(sessions, store)
      && (current.Some? ==> WellFormed(current.value) && current.value.id in store)
    }

    /**
      `id` is a `nanoid()` result no session known to the store carries.  Under
      `Valid()` every listed and open session has a row, so absence from the
      table suffices.
     */
    ghost predicate FreshSessionId(id: string)
      reads this
    {
      id !in store
    }

    /** The store as the application starts it, over whatever the database holds. */
    constructor (ghost table: Db.Table)
      requires ValidTable(table)
      ensures Valid()
      ensures current == None && sessions == [] && store == table
    {
      current := None;
      sessions := [];
      store := table;
    }

    /** `hasCurrentSession`: whether a session is open. */
    function HasCurrentSession(): (open: bool)
      reads this
      ensures open <==> current.Some?
    {
      current.Some?
    }

    /** `currentMessages`: the open session's messages, empty when none is open. */
    function CurrentMessages(): (ms: seq<ChatMessage>)
      reads this
      ensures !HasCurrentSession() ==> ms == []
      ensures HasCurrentSession() ==> ms == current.value.messages
    {
      if current.Some? then current.value.messages else []
    }

    /** `sessionCount`: the number of known sessions. */
    function SessionCount(): (n: nat)
      reads this
      ensures n == |sessions|
    {
      |sessions|
    }

    /**
      `loadSessions`: the list becomes the database's listing; `listed` is what
      `getAllSessions()` resolved to, unless `fail`.
     */
    method LoadSessions(listed: seq<ChatSession>, fail: bool) returns (r: Outcome<ChatError>)
      requires Valid()
      requires !fail ==> Db.IsListing(listed, store)
      modifies this`sessions
      ensures Valid()
      ensures fail ==> r == Failed(LoadSessionsFailed) && sessions == old(sessions)
      ensures !fail ==> r == Done && sessions == listed && SortedByRecency(sessions)
    {
      if fail {
        return Failed(LoadSessionsFailed);
      }
      sessions := listed;
      return Done;
    }

    /**
      `createNewSession`: persist a fresh empty session first, then put it at the
      front of the list and open it.  `createdAt` and `updatedAt` are the two
      clock readings the source takes.
     */
    method CreateNewSession(freshId: string, createdAt: nat, updatedAt: nat, fail: bool)
      returns (r: Result<string, ChatError>)
      requires Valid()
      requires FreshSessionId(freshId)
      modifies this
      ensures Valid()
      ensures fail ==>
        r == Err(CreateFailed) && current == old(current) && sessions == old(sessions) && store == old(store)
      ensures !fail ==>
        && r == Ok(freshId)
        && |sessions| == |old(sessions)| + 1
        && sessions[0] == ChatSession(freshId, DefaultTitle, [], createdAt, updatedAt, true)
        && sessions[1..] == old(sessions)
        && current == Some(sessions[0])
        && store == old(store)[freshId := sessions[0]]
        && SessionCount() == old(SessionCount()) + 1 && HasCurrentSession() && CurrentMessages() == []
      ensures !fail && SortedByRecency(old(sessions))
              && (forall j :: 0 <= j < |old(sessions)| ==> old(sessions)[j].updatedAt <= updatedAt)
              ==> SortedByRecency(sessions)
    {
      var session := ChatSession(freshId, DefaultTitle, [], createdAt, updatedAt, true);
      if fail {
        return Err(CreateFailed);
      }
      store := store[freshId := session];
      sessions := [session] + sessions;
      current := Some(session);
      return Ok(freshId);
    }

    /**
      `loadSession(id)`: open the stored session.  `fetched` is what
      `getSession(id)` resolved to, unless `fail`; a missing session and a
      failed read raise the same error.
     */
    method LoadSession(id: string, fetched: Option<ChatSession>, fail: bool) returns (r: Outcome<ChatError>)
      requires Valid()
      requires !fail ==> fetched == Db.Get(store, id)
      modifies this`current
      ensures Valid()
      ensures fail || fetched.None? ==> r == Failed(LoadSessionFailed) && current == old(current)
      ensures !fail && fetched.Some? ==> r == Done && id in store && current == Some(store[id])
    {
      if fail || fetched.None? {
        return Failed(LoadSessionFailed);
      }
      current := fetched;
      return Done;
    }

    /**
      `saveCurrentSession`: stamp the open session with the clock reading `now`
      (kept even when the write fails), persist it, and if the list holds its
      identifier replace that entry and re-sort the list newest first.
     */
    method SaveCurrentSession(now: nat, fail: bool) returns (r: Outcome<ChatError>)
      requires Valid()
      modifies this
      ensures Valid()
      ensures old(current).None? ==>
        r == Done && current == old(current) && sessions == old(sessions) && store == old(store)
      ensures old(current).Some? ==> current == Some(old(current).value.(updatedAt := now))
      ensures old(current).Some? && fail ==>
        r == Failed(SaveFailed) && sessions == old(sessions) && store == old(store)
      ensures old(current).Some? && !fail ==>
        var saved := old(current).value.(updatedAt := now);
        && r == Done
        && store == old(store)[saved.id := saved]
        && match FindIndex(old(sessions), SessionId, saved.id)
           case None => sessions == old(sessions)
           case Some(i) =>
             multiset(sessions) == multiset(old(sessions)[i := saved]) && SortedByRecency(sessions)
    {
      if current.None? {
        return Done;
      }
      var saved := current.value.(updatedAt := now);
      current := Some(saved);
      if fail {
        return Failed(SaveFailed);
      }
      PutKeepsTable(store, sessions, saved);
      store := store[saved.id := saved];
      var found := FindIndex(sessions, SessionId, saved.id);
      if found.Some? {
        ReplaceAndSortKeepsList(sessions, found.value, saved, store);
        sessions := SortByRecency(sessions[found.value := saved]);
      }
      return Done;
    }

    /**
      `addMessage`: with a session open, append a message with identifier
      `freshId` and timestamp `now`, deriving the title from a first user message.
     */
    method AddMessage(kind: MessageType, content: string, freshId: string, now: nat)
      requires Valid()
      requires current.Some? ==> forall j :: 0 <= j < |current.value.messages| ==> current.value.messages[j].id != freshId
      modifies this`current
      ensures Valid()
      ensures old(current).None? ==> current == old(current)
      ensures old(current).Some? ==>
        current == Some(WithMessage(old(current).value, ChatMessage(freshId, kind, content, now)))
      ensures CurrentMessages() == if old(HasCurrentSession())
                                   then old(CurrentMessages()) + [ChatMessage(freshId, kind, content, now)] else []
    {
      if current.None? {
        return;
      }
      var message := ChatMessage(freshId, kind, content, now);
      current := Some(WithMessage(current.value, message));
    }

    /**
      `editMessage`: with a session open and a message `messageId` in it, give
      the first such message `newContent` and drop every later message.
     */
    method EditMessage(messageId: string, newContent: string)
      requires Valid()
      modifies this`current
      ensures Valid()
      ensures old(current).None? ==> current == old(current)
      ensures old(current).Some? ==>
        var before := old(current).value;
        match FindIndex(before.messages, MessageId, messageId)
        case None => current == old(current)
        case Some(i) =>
          && current.Some?
          && current.value == before.(messages := current.value.messages)
          && |current.value.messages| == i + 1
          && current.value.messages[..i] == before.messages[..i]
          && current.value.messages[i] == before.messages[i].(content := newContent)
    {
      if current.None? {
        return;
      }
      var session := current.value;
      var found := FindIndex(session.messages, MessageId, messageId);
      if found.None? {
        return;
      }
      var i := found.value;
      var messages := session.messages[i := session.messages[i].(content := newContent)];
      current := Some(session.(messages := messages[..i + 1]));
    }

    /**
      `updateSessionTitle(id, title)`: retitle the open session if it is `id`,
      and independently the first list entry with identifier `id`.
     */
    method UpdateSessionTitle(id: string, title: string)
      requires Valid()
      modifies this`current, this`sessions
      ensures Valid()
      ensures current == if old(current).Some? && old(current).value.id == id
                         then Some(old(current).value.(title := title)) else old(current)
      ensures match FindIndex(old(sessions), SessionId, id)
              case None => sessions == old(sessions)
              case Some(i) => sessions == old(sessions)[i := old(sessions)[i].(title := title)]
    {
      if current.Some? && current.value.id == id {
        current := Some(current.value.(title := title));
      }
      var found := FindIndex(sessions, SessionId, id);
      if found.Some? {
        var i := found.value;
        sessions := sessions[i := sessions[i].(title := title)];
      }
    }

    /**
      `deleteSession(id)`: delete the row first; then drop every list entry with
      identifier `id` and close the open session if it is `id`.
     */
    method DeleteSession(id: string, fail: bool) returns (r: Outcome<ChatError>)
      requires Valid()
      modifies this
      ensures Valid()
      ensures fail ==>
        r == Failed(DeleteFailed) && current == old(current) && sessions == old(sessions) && store == old(store)
      ensures !fail ==>
        && r == Done
        && store == old(store) - {id}
        && sessions == Without(old(sessions), id)
        && current == if old(current).Some? && old(current).value.id == id then None else old(current)
      ensures !fail ==> (HasCurrentSession() <==> old(HasCurrentSession()) && old(current).value.id != id)
      ensures !fail && SortedByRecency(old(sessions)) ==> SortedByRecency(sessions)
    {
      if fail {
        return Failed(DeleteFailed);
      }
      store := store - {id};
      WithoutKeepsDistinct(sessions, id);
      if SortedByRecency(sessions) {
        WithoutKeepsSorted(sessions, id);
      }
      sessions := Without(sessions, id);
      if current.Some? && current.value.id == id {
        current := None;
      }
      return Done;
    }

    /** `clearAllSessions`: empty the table first; then the list, and close the session. */
    method ClearAllSessions(fail: bool) returns (r: Outcome<ChatError>)
      requires Valid()
      modifies this
      ensures Valid()
      ensures fail ==>
        r == Failed(ClearFailed) && current == old(current) && sessions == old(sessions) && store == old(store)
      ensures !fail ==> r == Done && store == map[] && sessions == [] && current == None
      ensures !fail ==> !HasCurrentSession() && SessionCount() == 0 && CurrentMessages() == []
    {
      if fail {
        return Failed(ClearFailed);
      }
      store := map[];
      sessions := [];
      current := None;
      return Done;
    }

    /** `clearCurrentSessionMessages`: empty the open session's messages, in memory only. */
    method ClearCurrentSessionMessages()
      requires Valid()
      modifies this`current
      ensures Valid()
      ensures old(current).None? ==> current == old(current)
      ensures old(current).Some? ==> current == Some(old(current).value.(messages := []))
      ensures CurrentMessages() == [] && HasCurrentSession() == old(HasCurrentSession())
    {
      if current.None? {
        return;
      }
      current := Some(current.value.(messages := []));
    }
  }
}
