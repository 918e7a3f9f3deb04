/**
  The array operations the chat store applies to its message and session
  lists: `findIndex` by identifier, `filter` by identifier and the
  newest-first `sort`, each specified by what it computes.
 */
module Lists {
  import opened Wrappers
  import opened Types

  function SessionId(s: ChatSession): (id: string) { s.id }

  function MessageId(m: ChatMessage): (id: string) { m.id }

  /** No two elements of `s` carry the same identifier. */
  ghost predicate Distinct<T>(s: seq<T>, idOf: T -> string) {
    forall i, j :: 0 <= i < j < |s| ==> idOf(s[i]) != idOf(s[j])
  }

  /** Newest first: `updatedAt` never increases along the list. */
  ghost predicate SortedByRecency(s: seq<ChatSession>) {
    forall i, j :: 0 <= i < j < |s| ==> s[i].updatedAt >= s[j].updatedAt
  }

  /**
    `findIndex(x => x.id === id)`: the first position holding identifier `id`,
    or None where the source gets -1.
   */
  function FindIndex<T>(s: seq<T>, idOf: T -> string, id: string): (r: Option<nat>)
    ensures r.Some? ==> r.value < |s| && idOf(s[r.value]) == id
    ensures r.Some? ==> forall j :: 0 <= j < r.value ==> idOf(s[j]) != id
    ensures r.None? <==> forall j :: 0 <= j < |s| ==> idOf(s[j]) != id
  {
    if s == [] then None
    else if idOf(s[0]) == id then Some(0)
    else match FindIndex(s[1..], idOf, id)
      case None => None
      case Some(k) => Some(k + 1)
  }

  /** `filter(x => x.id !== id)`: the sessions without identifier `id`. */
  function Without(s: seq<ChatSession>, id: string): (r: seq<ChatSession>)
    ensures forall x :: x in r <==> x in s && x.id != id
    ensures |r| <= |s|
    ensures (forall j :: 0 <= j < |s| ==> s[j].id != id) ==> r == s
  {
    if s == [] then []
    else if s[0].id == id then Without(s[1..], id)
    else [s[0]] + Without(s[1..], id)
  }

  /** Filtering keeps the relative order: it distributes over concatenation. */
  lemma {:induction false} WithoutAppend(a: seq<ChatSession>, b: seq<ChatSession>, id: string)
    ensures Without(a + b, id) == Without(a, id) + Without(b, id)
  {
    if a == [] {
      assert a + b == b;
    } else {
      assert (a + b)[0] == a[0];
      assert (a + b)[1..] == a[1..] + b;
      WithoutAppend(a[1..], b, id);
    }
  }

  /** Filtering never introduces a duplicate identifier. */
  lemma {:induction false} WithoutKeepsDistinct(s: seq<ChatSession>, id: string)
    requires Distinct(s, SessionId)
    ensures Distinct(Without(s, id), SessionId)
  {
    if s != [] {
      var t := Without(s[1..], id);
      WithoutKeepsDistinct(s[1..], id);
      if s[0].id != id {
        forall x | x in t
          ensures x.id != s[0].id
        {
          var k :| 0 <= k < |s[1..]| && s[1..][k] == x;
          assert s[k + 1] == x;
        }
        forall i, j | 0 <= i < j < |[s[0]] + t|
          ensures SessionId(([s[0]] + t)[i]) != SessionId(([s[0]] + t)[j])
        {
          if i == 0 {
            assert ([s[0]] + t)[j] == t[j - 1];
          } else {
            assert ([s[0]] + t)[i] == t[i - 1];
            assert ([s[0]] + t)[j] == t[j - 1];
          }
        }
      }
    }
  }

  /** Filtering keeps a newest-first list newest first. */
  lemma {:induction false} WithoutKeepsSorted(s: seq<ChatSession>, id: string)
    requires SortedByRecency(s)
    ensures SortedByRecency(Without(s, id))
  {
    if s != [] {
      var t := Without(s[1..], id);
      WithoutKeepsSorted(s[1..], id);
      if s[0].id != id {
        forall y | y in t ensures y.updatedAt <= s[0].updatedAt {
          var k :| 0 <= k < |s[1..]| && s[1..][k] == y;
          assert s[k + 1] == y;
        }
        forall i, j | 0 <= i < j < |[s[0]] + t|
          ensures ([s[0]] + t)[i].updatedAt >= ([s[0]] + t)[j].updatedAt
        {
          assert ([s[0]] + t)[j] == t[j - 1];
          assert t[j - 1] in t;
          if i > 0 {
            assert ([s[0]] + t)[i] == t[i - 1];
          }
        }
      }
    }
  }

  /**
    Inserts `x` in front of the first strictly older session: the step of a
    stable newest-first sort.
   */
  function Insert(x: ChatSession, s: seq<ChatSession>): (r: seq<ChatSession>)
    ensures multiset(r) == multiset(s) + multiset{x}
    ensures forall y :: y in r <==> y == x || y in s
  {
    if s == [] || x.updatedAt >= s[0].updatedAt then [x] + s
    else
      assert s == [s[0]] + s[1..];
      [s[0]] + Insert(x, s[1..])
  }

  /** Inserting into a newest-first list keeps it newest first. */
  lemma {:induction false} InsertKeepsSorted(x: ChatSession, s: seq<ChatSession>)
    requires SortedByRecency(s)
    ensures SortedByRecency(Insert(x, s))
  {
    if s != [] && x.updatedAt < s[0].updatedAt {
      var t := Insert(x, s[1..]);
      InsertKeepsSorted(x, s[1..]);
      forall y | y in t ensures y.updatedAt <= s[0].updatedAt {
        if y != x {
          var k :| 0 <= k < |s[1..]| && s[1..][k] == y;
          assert s[k + 1] == y;
        }
      }
      forall i, j | 0 <= i < j < |[s[0]] + t|
        ensures ([s[0]] + t)[i].updatedAt >= ([s[0]] + t)[j].updatedAt
      {
        assert ([s[0]] + t)[j] == t[j - 1];
        assert t[j - 1] in t;
        if i > 0 {
          assert ([s[0]] + t)[i] == t[i - 1];
        }
      }
    }
  }

  /**
    `sort((a, b) => b.updatedAt - a.updatedAt)`: the same sessions, newest
    first.
   */
  function SortByRecency(s: seq<ChatSession>): (r: seq<ChatSession>)
    ensures multiset(r) == multiset(s)
    ensures SortedByRecency(r)
  {
    if s == [] then []
    else
      assert s == [s[0]] + s[1..];
      InsertKeepsSorted(s[0], SortByRecency(s[1..]));
      Insert(s[0], SortByRecency(s[1..]))
  }

  /** Inserting a session whose identifier is new keeps identifiers distinct. */
  lemma {:induction false} InsertKeepsDistinct(x: ChatSession, s: seq<ChatSession>)
    requires Distinct(s, SessionId)
    requires forall y :: y in s ==> y.id != x.id
    ensures Distinct(Insert(x, s), SessionId)
  {
    if s != [] && x.updatedAt < s[0].updatedAt {
      var t := Insert(x, s[1..]);
      InsertKeepsDistinct(x, s[1..]);
      assert forall y :: y in t ==> y.id != s[0].id by {
        forall y | y in t ensures y.id != s[0].id {
          if y != x {
            var k :| 0 <= k < |s[1..]| && s[1..][k] == y;
            assert s[k + 1] == y;
          }
        }
      }
      forall i, j | 0 <= i < j < |[s[0]] + t|
        ensures SessionId(([s[0]] + t)[i]) != SessionId(([s[0]] + t)[j])
      {
        if i == 0 {
          assert ([s[0]] + t)[j] == t[j - 1];
        } else {
          assert ([s[0]] + t)[i] == t[i - 1];
          assert ([s[0]] + t)[j] == t[j - 1];
        }
      }
    }
  }

  /** Sorting never introduces a duplicate identifier. */
  lemma {:induction false} SortKeepsDistinct(s: seq<ChatSession>)
    requires Distinct(s, SessionId)
    ensures Distinct(SortByRecency(s), SessionId)
  {
    if s != [] {
      var t := SortByRecency(s[1..]);
      SortKeepsDistinct(s[1..]);
      forall y | y in t ensures y.id != s[0].id {
        assert y in multiset(s[1..]);
        var k :| 0 <= k < |s[1..]| && s[1..][k] == y;
        assert s[k + 1] == y;
      }
      InsertKeepsDistinct(s[0], t);
    }
  }
}
