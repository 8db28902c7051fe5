/**
 * The Postgres side of src/spinbot.py: the tables `chat_contexts` (keyed by
 * chat id) and `chat_users` (keyed by chat id and user id) as two maps, the
 * upserts that overwrite them, and the queries `load_chat` and
 * `select_non_users` run against them.
 */
module Storage {
  import opened Wrappers
  import opened Names
  import opened Model

  type ChatRows = map<ChatId, ChatRow>
  /** `chat_users`, keyed by its primary key (chat id, user id) as a map of maps. */
  type UserRows = map<ChatId, map<UserId, UserDef>>

  /** `SELECT ... FROM chat_users WHERE chat_id = c`: the records of chat `c`'s users. */
  function LoadedUsers(users: UserRows, c: ChatId): map<UserId, UserDef> {
    if c in users then users[c] else map[]
  }

  /** The table after `upsert_user(c, u, v)`: one row inserted or overwritten, no other row touched. */
  function PutUser(users: UserRows, c: ChatId, u: UserId, v: UserDef): (r: UserRows)
    ensures LoadedUsers(r, c) == LoadedUsers(users, c)[u := v]
    ensures forall d :: d != c ==> LoadedUsers(r, d) == LoadedUsers(users, d)
    ensures r.Keys == users.Keys + {c}
  {
    users[c := LoadedUsers(users, c)[u := v]]
  }

  /**
   * `select_non_users`: the distinct user ids that have a row in some chat
   * but no row in chat `c`.
   */
  function NonUsers(users: UserRows, c: ChatId): (r: set<UserId>)
    ensures forall u :: u in r <==> u !in LoadedUsers(users, c) && exists d :: d in users && u in users[d]
  {
    set d, u | d in users && u in users[d] && u !in LoadedUsers(users, c) :: u
  }

  /**
   * The states `load_chat(c)` can return: `ChatContext()` when the chat has no
   * row, otherwise the row and the chat's user records, with the roster in
   * whatever order the query yields.
   */
  predicate LoadedFrom(chats: ChatRows, users: UserRows, c: ChatId, st: ChatState) {
    if c !in chats then st == DefaultState()
    else RowOf(st) == chats[c] && st.users == LoadedUsers(users, c) && RosterMatches(st.userIds, st.users)
  }

  /** A stored row refers to the chat's own users, and a recorded spin has a winner. */
  predicate RowConsistent(row: ChatRow, users: map<UserId, UserDef>) {
    (row.lastWinnerId.Some? ==> row.lastWinnerId.value in users) &&
    (row.lastSpin.Some? ==> row.lastWinnerId.Some?)
  }

  /**
   * What the two tables satisfy when they are written only by this program:
   * a user row is written only after its chat's row, and the chat row's
   * winner is one of that chat's users.
   */
  predicate Consistent(chats: ChatRows, users: UserRows) {
    (forall c :: c in users ==> c in chats) &&
    (forall c :: c in chats ==> RowConsistent(chats[c], LoadedUsers(users, c)))
  }

  /** The store holds exactly the cached state of chat `c`. */
  predicate Mirrors(chats: ChatRows, users: UserRows, c: ChatId, st: ChatState) {
    c in chats && chats[c] == RowOf(st) && LoadedUsers(users, c) == st.users
  }

  /** Chat `d` has the same row, or none in both, and the same user rows in two states of the store. */
  predicate SameChat(chats: ChatRows, users: UserRows, chats': ChatRows, users': UserRows, d: ChatId) {
    (d in chats <==> d in chats') && (d in chats ==> chats'[d] == chats[d]) &&
    LoadedUsers(users', d) == LoadedUsers(users, d)
  }

  /** What `load_chat` returns from a consistent store is a valid chat whose store rows mirror it. */
  lemma LoadedIsMirrored(chats: ChatRows, users: UserRows, c: ChatId, st: ChatState)
    requires Consistent(chats, users) && LoadedFrom(chats, users, c, st)
    ensures ChatInvariant(st)
    ensures c in chats ==> Mirrors(chats, users, c, st)
    ensures c !in chats ==> st == DefaultState() && LoadedUsers(users, c) == map[]
  {
  }

  /** Store round trip: what was upserted for a chat is what loading it returns. */
  lemma UpsertChatThenLoad(chats: ChatRows, users: UserRows, c: ChatId, row: ChatRow, st: ChatState)
    requires LoadedFrom(chats[c := row], users, c, st)
    ensures RowOf(st) == row && st.users == LoadedUsers(users, c)
  {
  }

  /** Adding a row for `u` in chat `c` removes `u` from chat `c`'s non-users and adds no one. */
  lemma NonUsersAfterUpsert(users: UserRows, c: ChatId, u: UserId, v: UserDef)
    ensures NonUsers(PutUser(users, c, u, v), c) == NonUsers(users, c) - {u}
  {
    var users' := PutUser(users, c, u, v);
    forall x | x in NonUsers(users', c) ensures x in NonUsers(users, c) - {u} {
      var d :| d in users' && x in users'[d];
      assert x != u;
      assert d != c;
      assert d in users && x in users[d];
    }
    forall x | x in NonUsers(users, c) - {u} ensures x in NonUsers(users', c) {
      var d :| d in users && x in users[d];
      assert d != c;
      assert x in users'[d];
    }
  }

  /**
   * The store is consistent, and every chat of the cache `snap` satisfies its
   * invariant and is mirrored by the store.
   */
  predicate Synced(chats: ChatRows, users: UserRows, snap: map<ChatId, ChatState>) {
    Consistent(chats, users) &&
    forall c :: c in snap ==> ChatInvariant(snap[c]) && Mirrors(chats, users, c, snap[c])
  }

  /**
   * Writing chat `c`'s new state `st'` through (its user `u`'s record, then its
   * row) keeps a synced store synced with the updated cache.
   */
  lemma SyncedAfterUserAndChatUpsert(chats: ChatRows, users: UserRows, snap: map<ChatId, ChatState>,
                                     c: ChatId, u: UserId, v: UserDef, st': ChatState)
    requires Synced(chats, users, snap) && c in snap
    requires ChatInvariant(st') && st'.users == snap[c].users[u := v]
    ensures Synced(chats[c := RowOf(st')], PutUser(users, c, u, v), snap[c := st'])
  {
    var chats', users' := chats[c := RowOf(st')], PutUser(users, c, u, v);
    forall d | d in chats'
      ensures RowConsistent(chats'[d], LoadedUsers(users', d))
    {
      if d != c {
        assert LoadedUsers(users', d) == LoadedUsers(users, d);
      }
    }
  }

  /** Writing only user `u`'s record of chat `c` keeps the store synced when the row is unchanged. */
  lemma SyncedAfterUserUpsert(chats: ChatRows, users: UserRows, snap: map<ChatId, ChatState>,
                              c: ChatId, u: UserId, v: UserDef, st': ChatState)
    requires Synced(chats, users, snap) && c in snap
    requires ChatInvariant(st') && st'.users == snap[c].users[u := v] && RowOf(st') == RowOf(snap[c])
    ensures Synced(chats, PutUser(users, c, u, v), snap[c := st'])
  {
    SyncedAfterUserAndChatUpsert(chats, users, snap, c, u, v, st');
    assert chats[c := RowOf(st')] == chats;
  }

  /**
   * Writing chat `c`'s row for a state whose records are the stored ones
   * keeps a synced store synced with the updated cache; `c` may be new to it.
   */
  lemma SyncedAfterChatUpsert(chats: ChatRows, users: UserRows, snap: map<ChatId, ChatState>,
                              c: ChatId, st': ChatState)
    requires Synced(chats, users, snap)
    requires ChatInvariant(st') && st'.users == LoadedUsers(users, c)
    ensures Synced(chats[c := RowOf(st')], users, snap[c := st'])
  {
  }

  /**
   * Lists every key of `users` once, in an unspecified order (the rows of a
   * query without `ORDER BY`).
   */
  method RosterOrder(users: map<UserId, UserDef>) returns (ids: seq<UserId>)
    ensures RosterMatches(ids, users)
  {
    ids := [];
    var rest := users.Keys;
    while rest != {}
      invariant rest <= users.Keys
      invariant NoDup(ids)
      invariant forall i :: 0 <= i < |ids| ==> ids[i] in users && ids[i] !in rest
      invariant forall u :: u in users ==> u in rest || u in ids
      decreases rest
    {
      HasElement(rest);
      var u :| u in rest;
      ids := ids + [u];
      rest := rest - {u};
    }
  }

  /** The database connection, reduced to the contents of its two tables. */
  class Store {
    var chatContexts: ChatRows
    var chatUsers: UserRows

    constructor (chats: ChatRows, users: UserRows)
      ensures chatContexts == chats && chatUsers == users
    {
      chatContexts, chatUsers := chats, users;
    }

    /** `upsert_chat`: insert or overwrite the chat's row, roster excluded. */
    method UpsertChat(c: ChatId, st: ChatState)
      modifies this
      ensures chatContexts == old(chatContexts)[c := RowOf(st)]
      ensures chatUsers == old(chatUsers)
    {
      chatContexts := chatContexts[c := RowOf(st)];
    }

    /** `upsert_user`: insert or overwrite the row keyed by chat and user. */
    method UpsertUser(c: ChatId, u: UserId, udef: UserDef)
      modifies this
      ensures chatUsers == PutUser(old(chatUsers), c, u, udef)
      ensures chatContexts == old(chatContexts)
    {
      chatUsers := PutUser(chatUsers, c, u, udef);
    }

    /** `load_chat`: a new `ChatContext` filled from the stored row and the chat's user rows. */
    method LoadChat(c: ChatId) returns (ctx: ChatContext)
      ensures fresh(ctx)
      ensures LoadedFrom(chatContexts, chatUsers, c, ctx.State())
      ensures c !in chatContexts ==> ctx.State() == DefaultState()
    {
      ctx := new ChatContext();
      if c !in chatContexts {
        return;
      }
      var row := chatContexts[c];
      ctx.wheel, ctx.action := row.wheel, row.action;
      ctx.lastWinnerId, ctx.lastWheel, ctx.lastSpin := row.lastWinnerId, row.lastWheel, row.lastSpin;
      var users := LoadedUsers(chatUsers, c);
      var ids := RosterOrder(users);
      ctx.userIds, ctx.users := ids, users;
    }

    /** `select_non_users(c)`. */
    function SelectNonUsers(c: ChatId): (r: set<UserId>)
      reads this
      ensures forall u :: u in r <==> u !in LoadedUsers(chatUsers, c) && exists d :: d in chatUsers && u in chatUsers[d]
    {
      NonUsers(chatUsers, c)
    }
  }
}
