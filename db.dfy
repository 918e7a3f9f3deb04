/**
  The session database (src/services/dbService.ts), seen only through its
  contract: a table of sessions keyed by identifier.  The chat store keeps
  the table as a ghost map; `put`, `delete` and `clear` are map updates, and
  the two reads are described here by what they may return.
 */
module Db {
  import opened Wrappers
  import opened Types
  import opened Lists

  type Table = map<string, ChatSession>

  /** Every row is stored under its own identifier, as `put` guarantees. */
  ghost predicate KeyedById(table: Table) {
    forall k :: k in table ==> table[k].id == k
  }

  /** What `getSession(id)` resolves to: the row, or `undefined`. */
  ghost function Get(table: Table, id: string): (row: Option<ChatSession>) {
    if id in table then Some(table[id]) else None
  }

  /**
    What `getAllSessions()` may resolve to: every row exactly once, ordered by
    `updatedAt` descending (ties in an order the database chooses).
   */
  ghost predicate IsListing(listed: seq<ChatSession>, table: Table) {
    && Distinct(listed, SessionId)
    && (forall j :: 0 <= j < |listed| ==> listed[j].id in table && table[listed[j].id] == listed[j])
    && (forall k :: k in table ==> exists j :: 0 <= j < |listed| && listed[j].id == k)
    && SortedByRecency(listed)
  }
}
