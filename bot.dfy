/**
 * The process state of src/spinbot.py: the cache `chats` (one `ChatState`
 * per chat id), the database, and the process-wide `last_daily_spin`, with
 * the handlers that change them. Every handler leaves the store mirroring
 * the cache (`Valid`).
 */
module SpinBot {
  import opened Wrappers
  import opened Names
  import opened Model
  import opened Storage
  import Lottery
  import HtmlEscaping

  /** What `spin` answers with: a fresh announcement, or today's recorded result. */
  datatype SpinReply = Announced(winner: UserId) | Repeated(winnerName: string, wheel: string)

  /** The ids of a list of chat administrators. */
  function AdminIds(admins: seq<TgUser>): set<UserId> {
    set a | a in admins :: a.id
  }

  /**
   * The display name `/scan` records for each administrator: the one of their
   * first entry in the list (a later entry finds them on the roster already).
   */
  function FirstNames(admins: seq<TgUser>): (m: map<UserId, string>)
    ensures m.Keys == AdminIds(admins)
  {
    if admins == [] then map[]
    else
      var init, a := admins[..|admins| - 1], admins[|admins| - 1];
      assert admins == init + [a];
      assert AdminIds(admins) == AdminIds(init) + {a.id};
      var m := FirstNames(init);
      if a.id in m then m else m[a.id := GetPrettyUsername(a.profile)]
  }

  /**
   * The order in which `/scan` appends administrators to `user_ids`: the ids
   * of the list that are not in `known`, each at its first entry.
   */
  function NewAdminIds(admins: seq<TgUser>, known: set<UserId>): (ids: seq<UserId>)
    ensures NoDup(ids)
    ensures forall u :: u in ids <==> u in AdminIds(admins) - known
  {
    if admins == [] then []
    else
      var init, a := admins[..|admins| - 1], admins[|admins| - 1];
      assert admins == init + [a];
      assert AdminIds(admins) == AdminIds(init) + {a.id};
      var ids := NewAdminIds(init, known);
      if a.id in known || a.id in AdminIds(init) then ids
      else
        assert a.id !in ids;
        assert forall u :: u in ids + [a.id] <==> u in ids || u == a.id;
        ids + [a.id]
  }

  /** Distinct administrators that are all new are appended exactly in list order. */
  lemma {:induction false} NewAdminIdsInListOrder(admins: seq<TgUser>, known: set<UserId>)
    requires forall i, j :: 0 <= i < j < |admins| ==> admins[i].id != admins[j].id
    requires forall i :: 0 <= i < |admins| ==> admins[i].id !in known
    ensures |NewAdminIds(admins, known)| == |admins|
    ensures forall i :: 0 <= i < |admins| ==> NewAdminIds(admins, known)[i] == admins[i].id
  {
    if admins != [] {
      var init, a := admins[..|admins| - 1], admins[|admins| - 1];
      assert admins == init + [a];
      NewAdminIdsInListOrder(init, known);
      assert a.id !in AdminIds(init) by {
        forall b | b in init ensures b.id != a.id {
          var k :| 0 <= k < |init| && init[k] == b;
          assert admins[k] == b;
        }
      }
    }
  }

  /** Extending a prefix of the administrator list by one entry adds its id, and its name and place unless the id was listed already. */
  lemma AdminPrefixStep(list: seq<TgUser>, i: nat, known: set<UserId>)
    requires i < |list|
    ensures AdminIds(list[..i + 1]) == AdminIds(list[..i]) + {list[i].id}
    ensures FirstNames(list[..i + 1]) == (var m := FirstNames(list[..i]);
      if list[i].id in m then m else m[list[i].id := GetPrettyUsername(list[i].profile)])
    ensures NewAdminIds(list[..i + 1], known) == (var ids := NewAdminIds(list[..i], known);
      if list[i].id in known || list[i].id in AdminIds(list[..i]) then ids else ids + [list[i].id])
  {
    assert list[..i + 1][..i] == list[..i];
    assert list[..i + 1] == list[..i] + [list[i]];
  }


  /**
   * The users `/scan` tries beyond the administrators: those `select_non_users`
   * returns once the new administrators have been written.
   */
  function ScanCandidates(users: UserRows, c: ChatId, admins: seq<TgUser>): set<UserId> {
    NonUsers(users, c) - AdminIds(admins)
  }

  /** The users a scan adds: new administrators, and the candidates whose lookup answered. */
  function ScanFound(st: ChatState, users: UserRows, c: ChatId, admins: Option<seq<TgUser>>,
                     fetch: UserId -> Option<Profile>): set<UserId>
  {
    if admins.None? then {}
    else (AdminIds(admins.value) - st.users.Keys) +
         set u | u in ScanCandidates(users, c, admins.value) && fetch(u).Some?
  }

  lemma UnionAbsorbs(k: set<UserId>, a: set<UserId>, f: set<UserId>)
    ensures k + a + f == k + ((a - k) + f)
  {
  }

  /**
   * The count `/scan` reports is the number of users it adds: the new
   * administrators and the candidates whose lookup answered, none of them
   * on the roster before.
   */
  lemma ScanFoundCount(st0: ChatState, st2: ChatState, rows0: UserRows, c: ChatId, admins: seq<TgUser>,
                       fetch: UserId -> Option<Profile>, n: int)
    requires RosterMatches(st0.userIds, st0.users) && RosterMatches(st2.userIds, st2.users)
    requires LoadedUsers(rows0, c) == st0.users
    requires st2.users.Keys == st0.users.Keys + AdminIds(admins) +
                               set u | u in ScanCandidates(rows0, c, admins) && fetch(u).Some?
    requires n == |st2.userIds| - |st0.userIds|
    ensures var found := ScanFound(st0, rows0, c, Some(admins), fetch);
            && st2.users.Keys == st0.users.Keys + found
            && found !! st0.users.Keys
            && n == |found|
  {
    var k0, a := st0.users.Keys, AdminIds(admins);
    var f := set u | u in ScanCandidates(rows0, c, admins) && fetch(u).Some?;
    assert f !! k0;
    var found := ScanFound(st0, rows0, c, Some(admins), fetch);
    assert found == (a - k0) + f;
    UnionAbsorbs(k0, a, f);
    assert |st2.users.Keys| == |k0| + |found|;
    RosterSize(st0.userIds, st0.users);
    RosterSize(st2.userIds, st2.users);
  }

  class Bot {
    const db: Store
    var chats: map<ChatId, ChatState>
    var lastDailySpin: Option<Moment>

    /** The store is consistent and mirrors every cached chat, and every cached chat is valid. */
    ghost predicate Valid()
      reads this, db
    {
      Synced(db.chatContexts, db.chatUsers, chats)
    }

    constructor (store: Store)
      requires Consistent(store.chatContexts, store.chatUsers)
      ensures Valid() && db == store && chats == map[] && lastDailySpin == None
    {
      db := store;
      chats := map[];
      lastDailySpin := None;
    }

    /** `load_chats`: (re)load every chat that has a row in `chat_contexts`. */
    method LoadChats()
      requires Valid()
      modifies this
      ensures Valid() && lastDailySpin == old(lastDailySpin)
      ensures chats.Keys == old(chats.Keys) + db.chatContexts.Keys
      ensures forall c :: c in db.chatContexts ==> LoadedFrom(db.chatContexts, db.chatUsers, c, chats[c])
      ensures forall c :: c in chats && c !in db.chatContexts ==> chats[c] == old(chats[c])
    {
      var todo := db.chatContexts.Keys;
      while todo != {}
        invariant todo <= db.chatContexts.Keys
        invariant Valid() && lastDailySpin == old(lastDailySpin)
        invariant chats.Keys == old(chats.Keys) + (db.chatContexts.Keys - todo)
        invariant forall c :: c in db.chatContexts && c !in todo ==>
          LoadedFrom(db.chatContexts, db.chatUsers, c, chats[c])
        invariant forall c :: c in chats && (c !in db.chatContexts || c in todo) ==> chats[c] == old(chats[c])
        decreases todo
      {
        HasElement(todo);
        var c :| c in todo;
        var ctx := db.LoadChat(c);
        LoadedIsMirrored(db.chatContexts, db.chatUsers, c, ctx.State());
        SyncedAfterChatUpsert(db.chatContexts, db.chatUsers, chats, c, ctx.State());
        assert db.chatContexts[c := RowOf(ctx.State())] == db.chatContexts;
        chats := chats[c := ctx.State()];
        todo := todo - {c};
      }
    }

    /**
     * `update_user_def`: a newcomer is appended to the roster with no wins, a
     * known user only gets the new name; either way the record is written through.
     */
    method UpdateUserDef(chatId: ChatId, user: TgUser)
      requires Valid() && chatId in chats
      modifies this, db
      ensures Valid() && lastDailySpin == old(lastDailySpin)
      ensures chats == old(chats)[chatId := Lottery.Observe(old(chats[chatId]), user.id, GetPrettyUsername(user.profile))]
      ensures db.chatUsers == PutUser(old(db.chatUsers), chatId, user.id, chats[chatId].users[user.id])
      ensures db.chatContexts == old(db.chatContexts)
    {
      var ctx := chats[chatId];
      var name := GetPrettyUsername(user.profile);
      var u := user.id;
      var udef;
      if u !in ctx.users {
        udef := UserDef(name, 0);
        ctx := ctx.(users := ctx.users[u := udef], userIds := ctx.userIds + [u]);
      } else {
        udef := ctx.users[u].(username := name);
        ctx := ctx.(users := ctx.users[u := udef]);
      }
      assert ctx == Lottery.Observe(chats[chatId], u, name);
      SyncedAfterUserUpsert(db.chatContexts, db.chatUsers, chats, chatId, u, udef, ctx);
      chats := chats[chatId := ctx];
      db.UpsertUser(chatId, u, udef);
    }

    /**
     * `context_filter`: find the chat, loading, caching and writing through an
     * unknown one, then record the sender. `before` is the chat as found or
     * loaded, before the sender was recorded.
     */
    method ContextFilter(chatId: ChatId, from: TgUser) returns (ghost before: ChatState)
      requires Valid()
      modifies this, db
      ensures Valid() && lastDailySpin == old(lastDailySpin)
      ensures old(chatId in chats) ==> before == old(chats[chatId])
      ensures old(chatId !in chats) ==> LoadedFrom(old(db.chatContexts), old(db.chatUsers), chatId, before)
      ensures chats == old(chats)[chatId := Lottery.Observe(before, from.id, GetPrettyUsername(from.profile))]
      ensures db.chatContexts == old(db.chatContexts)[chatId := RowOf(before)]
      ensures db.chatUsers == PutUser(old(db.chatUsers), chatId, from.id, chats[chatId].users[from.id])
      ensures from.id in chats[chatId].userIds
    {
      if chatId !in chats {
        var loaded := db.LoadChat(chatId);
        LoadedIsMirrored(db.chatContexts, db.chatUsers, chatId, loaded.State());
        SyncedAfterChatUpsert(db.chatContexts, db.chatUsers, chats, chatId, loaded.State());
        chats := chats[chatId := loaded.State()];
        db.UpsertChat(chatId, loaded.State());
      } else {
        assert db.chatContexts[chatId := RowOf(chats[chatId])] == db.chatContexts;
      }
      before := chats[chatId];
      UpdateUserDef(chatId, from);
    }

    /**
     * The state part of `spin_the_wheel`: the user at index `pick` wins;
     * their record and the chat's row are written before any message is sent.
     */
    method SpinTheWheel(chatId: ChatId, now: Moment, pick: nat)
      requires Valid() && chatId in chats && pick < |chats[chatId].userIds|
      modifies this, db
      ensures Valid() && lastDailySpin == old(lastDailySpin)
      ensures chats == old(chats)[chatId := Lottery.Draw(old(chats[chatId]), pick, now)]
      ensures var w := Lottery.Chosen(old(chats[chatId]), pick);
              db.chatUsers == PutUser(old(db.chatUsers), chatId, w, chats[chatId].users[w])
      ensures db.chatContexts == old(db.chatContexts)[chatId := RowOf(chats[chatId])]
    {
      var ctx := chats[chatId];
      var u := ctx.userIds[pick];
      var udef := ctx.users[u].(wonTimes := ctx.users[u].wonTimes + 1);
      ctx := ctx.(users := ctx.users[u := udef]);
      ctx := ctx.(lastWinnerId := Some(u));
      ctx := ctx.(lastSpin := Some(now));
      ctx := ctx.(lastWheel := Some(ctx.wheel));
      assert ctx == Lottery.Draw(chats[chatId], pick, now);
      SyncedAfterUserAndChatUpsert(db.chatContexts, db.chatUsers, chats, chatId, u, udef, ctx);
      chats := chats[chatId := ctx];
      db.UpsertUser(chatId, u, udef);
      db.UpsertChat(chatId, ctx);
    }

    /** `spin`: answer with today's result when there is one, otherwise draw. */
    method Spin(chatId: ChatId, now: Moment, pick: nat) returns (reply: SpinReply)
      requires Valid() && chatId in chats
      requires Lottery.CanSpin(chats[chatId], now, pick)
      modifies this, db
      ensures Valid() && lastDailySpin == old(lastDailySpin)
      ensures chats == old(chats)[chatId := Lottery.SpinStep(old(chats[chatId]), now, pick)]
      ensures Lottery.SpunToday(old(chats[chatId]), now.day) ==>
        unchanged(db) && reply == Repeated(Lottery.RepeatedWinner(old(chats[chatId])), old(chats[chatId].wheel))
      ensures !Lottery.SpunToday(old(chats[chatId]), now.day) ==>
        var w := Lottery.Chosen(old(chats[chatId]), pick);
        && reply == Announced(w)
        && db.chatUsers == PutUser(old(db.chatUsers), chatId, w, chats[chatId].users[w])
        && db.chatContexts == old(db.chatContexts)[chatId := RowOf(chats[chatId])]
    {
      var ctx := chats[chatId];
      if ctx.lastSpin.Some? && ctx.lastSpin.value.day == now.day && ctx.lastWinnerId.Some? && ctx.lastWinnerId.value != 0 {
        var name := ctx.users[ctx.lastWinnerId.value].username;
        reply := Repeated(name, ctx.wheel);
        assert chats == chats[chatId := ctx];
      } else {
        var w := ctx.userIds[pick];
        SpinTheWheel(chatId, now, pick);
        reply := Announced(w);
      }
    }

    /**
     * One chat's turn in the loop of `daily_spin`. `fetchOk` says whether the
     * transport calls of the turn succeed; every exception of the turn is
     * caught and leaves the chat as it was.
     */
    method DailyTurn(chatId: ChatId, now: Moment, fetchOk: bool, pick: nat)
      requires Valid() && chatId in chats
      requires Lottery.PickFits(chats[chatId], pick)
      modifies this, db
      ensures Valid() && lastDailySpin == old(lastDailySpin)
      ensures chats.Keys == old(chats.Keys)
      ensures chats[chatId] == Lottery.DailyChatStep(old(chats[chatId]), now, fetchOk, pick)
      ensures forall c :: c in chats && c != chatId ==> chats[c] == old(chats[c])
      ensures forall d :: d != chatId ==>
        SameChat(old(db.chatContexts), old(db.chatUsers), db.chatContexts, db.chatUsers, d)
    {
      var ctx := chats[chatId];
      assert chats == chats[chatId := ctx];
      if Lottery.DailySkipAsWritten(ctx.lastSpin, now, false) {
        return;
      }
      if !fetchOk {
        return;
      }
      if !Lottery.SpunToday(ctx, now.day) && ctx.userIds == [] {
        // random.choice raises IndexError on the empty roster
        return;
      }
      var _ := Spin(chatId, now, pick);
    }

    /**
     * `daily_spin`: at most one pass per ten minutes and none before 08:00;
     * the pass time is committed before the chats are visited, and a failing
     * chat neither stops the pass nor undoes that commit.
     */
    method DailySpin(now: Moment, fetchOk: ChatId -> bool, pick: ChatId -> nat) returns (ran: bool)
      requires Valid()
      requires forall c :: c in chats ==> Lottery.PickFits(chats[c], pick(c))
      modifies this, db
      ensures Valid() && chats.Keys == old(chats.Keys)
      ensures ran == Lottery.DailyRuns(old(lastDailySpin), now)
      ensures !ran ==> lastDailySpin == old(lastDailySpin) && chats == old(chats) && unchanged(db)
      ensures ran ==> lastDailySpin == Some(now)
      ensures ran ==> forall c :: c in chats ==>
        chats[c] == Lottery.DailyChatStep(old(chats[c]), now, fetchOk(c), pick(c))
      ensures forall d :: d !in old(chats) ==>
        SameChat(old(db.chatContexts), old(db.chatUsers), db.chatContexts, db.chatUsers, d)
    {
      if lastDailySpin.Some? && now.minute - lastDailySpin.value.minute < Lottery.ThrottleMinutes {
        return false;
      }
      if now.hour < Lottery.GateHour {
        return false;
      }
      lastDailySpin := Some(now);
      ran := true;
      ghost var start := chats;
      var todo := chats.Keys;
      while todo != {}
        invariant todo <= chats.Keys == start.Keys
        invariant Valid() && lastDailySpin == Some(now)
        invariant forall c :: c in start ==> Lottery.PickFits(start[c], pick(c))
        invariant forall c :: c in todo ==> chats[c] == start[c]
        invariant forall c :: c in chats && c !in todo ==>
          chats[c] == Lottery.DailyChatStep(start[c], now, fetchOk(c), pick(c))
        invariant forall d :: d !in start ==>
          SameChat(old(db.chatContexts), old(db.chatUsers), db.chatContexts, db.chatUsers, d)
        decreases todo
      {
        HasElement(todo);
        var c :| c in todo;
        ghost var before, rows, userRows, pending := chats, db.chatContexts, db.chatUsers, todo;
        DailyTurn(c, now, fetchOk(c), pick(c));
        forall d | d !in start
          ensures SameChat(old(db.chatContexts), old(db.chatUsers), db.chatContexts, db.chatUsers, d)
        {
          assert SameChat(rows, userRows, db.chatContexts, db.chatUsers, d);
        }
        todo := todo - {c};
        forall e | e in chats && e !in todo
          ensures chats[e] == Lottery.DailyChatStep(start[e], now, fetchOk(e), pick(e))
        {
          assert e in before && e in start;
          if e == c {
            assert before[c] == start[c];
          } else {
            assert e !in pending;
            assert chats[e] == before[e];
          }
        }
      }
    }

    /** `force_spin`: draw regardless of today's result, then run the daily pass. */
    method ForceSpin(chatId: ChatId, now: Moment, pick: nat,
                     fetchOk: ChatId -> bool, picks: ChatId -> nat) returns (ran: bool)
      requires Valid() && chatId in chats && pick < |chats[chatId].userIds|
      requires forall c :: c in chats ==> Lottery.PickFits(chats[c], picks(c))
      modifies this, db
      ensures Valid() && chats.Keys == old(chats.Keys)
      ensures ran == Lottery.DailyRuns(old(lastDailySpin), now)
      ensures ran ==> lastDailySpin == Some(now)
      ensures !ran ==> lastDailySpin == old(lastDailySpin)
      ensures var drawn := Lottery.Draw(old(chats[chatId]), pick, now);
              && Lottery.PickFits(drawn, picks(chatId))
              && chats[chatId] == (if ran then Lottery.DailyChatStep(drawn, now, fetchOk(chatId), picks(chatId)) else drawn)
              && (0 !in old(chats[chatId].users) ==> chats[chatId] == drawn)
      ensures forall c :: c in chats && c != chatId ==>
        chats[c] == if ran then Lottery.DailyChatStep(old(chats[c]), now, fetchOk(c), picks(c)) else old(chats[c])
      ensures forall d :: d !in old(chats) ==>
        SameChat(old(db.chatContexts), old(db.chatUsers), db.chatContexts, db.chatUsers, d)
    {
      SpinTheWheel(chatId, now, pick);
      ran := DailySpin(now, fetchOk, picks);
      if ran && 0 !in old(chats[chatId].users) {
        Lottery.ForcedDrawResolvesDaily(old(chats[chatId]), pick, now, fetchOk(chatId), picks(chatId));
      }
    }

    /** `reset_daily`: forget today's spin time (the last winner stays) and write through. */
    method ResetDaily(chatId: ChatId)
      requires Valid() && chatId in chats
      modifies this, db
      ensures Valid() && lastDailySpin == old(lastDailySpin)
      ensures chats == old(chats)[chatId := Lottery.ResetDaily(old(chats[chatId]))]
      ensures db.chatContexts == old(db.chatContexts)[chatId := RowOf(chats[chatId])]
      ensures db.chatUsers == old(db.chatUsers)
    {
      var ctx := chats[chatId].(lastSpin := None);
      SyncedAfterChatUpsert(db.chatContexts, db.chatUsers, chats, chatId, ctx);
      chats := chats[chatId := ctx];
      db.UpsertChat(chatId, ctx);
    }

    /** `setname`: refuse an empty argument; otherwise store the escaped label and write through. */
    method SetWheelName(chatId: ChatId, args: string) returns (accepted: bool)
      requires Valid() && chatId in chats
      modifies this, db
      ensures Valid() && lastDailySpin == old(lastDailySpin)
      ensures accepted == (args != "")
      ensures chats == old(chats)[chatId := Lottery.SetWheel(old(chats[chatId]), args)]
      ensures !accepted ==> unchanged(db)
      ensures accepted ==> db.chatContexts == old(db.chatContexts)[chatId := RowOf(chats[chatId])]
      ensures db.chatUsers == old(db.chatUsers)
    {
      if args == "" {
        assert chats == chats[chatId := chats[chatId]];
        return false;
      }
      var ctx := chats[chatId].(wheel := HtmlEscaping.HtmlEscape(args));
      SyncedAfterChatUpsert(db.chatContexts, db.chatUsers, chats, chatId, ctx);
      chats := chats[chatId := ctx];
      db.UpsertChat(chatId, ctx);
      accepted := true;
    }

    /** `setaction`: the same rule for the action label. */
    method SetActionName(chatId: ChatId, args: string) returns (accepted: bool)
      requires Valid() && chatId in chats
      modifies this, db
      ensures Valid() && lastDailySpin == old(lastDailySpin)
      ensures accepted == (args != "")
      ensures chats == old(chats)[chatId := Lottery.SetAction(old(chats[chatId]), args)]
      ensures !accepted ==> unchanged(db)
      ensures accepted ==> db.chatContexts == old(db.chatContexts)[chatId := RowOf(chats[chatId])]
      ensures db.chatUsers == old(db.chatUsers)
    {
      if args == "" {
        assert chats == chats[chatId := chats[chatId]];
        return false;
      }
      var ctx := chats[chatId].(action := HtmlEscaping.HtmlEscape(args));
      SyncedAfterChatUpsert(db.chatContexts, db.chatUsers, chats, chatId, ctx);
      chats := chats[chatId := ctx];
      db.UpsertChat(chatId, ctx);
      accepted := true;
    }

    /** The first loop of `scan_chat_users`: record every administrator not yet on the roster. */
    method AddAdmins(chatId: ChatId, list: seq<TgUser>) returns (added: nat)
      requires Valid() && chatId in chats
      modifies this, db
      ensures Valid() && lastDailySpin == old(lastDailySpin) && db.chatContexts == old(db.chatContexts)
      ensures chatId in chats && chats == old(chats)[chatId := chats[chatId]]
      ensures Lottery.RosterGrows(old(chats[chatId]), chats[chatId])
      ensures chats[chatId].users.Keys == old(chats[chatId].users.Keys) + AdminIds(list)
      ensures added == |chats[chatId].userIds| - |old(chats[chatId].userIds)|
      ensures NonUsers(db.chatUsers, chatId) == NonUsers(old(db.chatUsers), chatId) - AdminIds(list)
      ensures forall u :: u in chats[chatId].users && u !in old(chats[chatId].users) ==>
        u in FirstNames(list) && chats[chatId].users[u].username == FirstNames(list)[u]
      ensures chats[chatId].userIds == old(chats[chatId].userIds) + NewAdminIds(list, old(chats[chatId].users.Keys))
      ensures forall d :: d != chatId ==>
        SameChat(old(db.chatContexts), old(db.chatUsers), db.chatContexts, db.chatUsers, d)
    {
      ghost var st0, rows0 := chats[chatId], db.chatUsers;
      added := 0;
      for i := 0 to |list|
        invariant Valid() && lastDailySpin == old(lastDailySpin) && db.chatContexts == old(db.chatContexts)
        invariant chatId in chats && chats == old(chats)[chatId := chats[chatId]]
        invariant Lottery.RosterGrows(st0, chats[chatId])
        invariant chats[chatId].users.Keys == st0.users.Keys + AdminIds(list[..i])
        invariant added == |chats[chatId].userIds| - |st0.userIds|
        invariant NonUsers(db.chatUsers, chatId) == NonUsers(rows0, chatId) - AdminIds(list[..i])
        invariant forall u :: u in chats[chatId].users && u !in st0.users ==>
          u in FirstNames(list[..i]) && chats[chatId].users[u].username == FirstNames(list[..i])[u]
        invariant chats[chatId].userIds == st0.userIds + NewAdminIds(list[..i], st0.users.Keys)
        invariant forall d :: d != chatId ==>
          SameChat(old(db.chatContexts), rows0, db.chatContexts, db.chatUsers, d)
      {
        var member := list[i];
        AdminPrefixStep(list, i, st0.users.Keys);
        ghost var st, rows := chats[chatId], db.chatUsers;
        ghost var names := FirstNames(list[..i]);
        SetSteps(st0.users.Keys, AdminIds(list[..i]), member.id);
        SetSteps(NonUsers(rows0, chatId), AdminIds(list[..i]), member.id);
        if member.id !in chats[chatId].users {
          UpdateUserDef(chatId, member);
          UpdateTwice(old(chats), chatId, st, chats[chatId]);
          Lottery.ObserveNewcomer(st, member.id, GetPrettyUsername(member.profile));
          Lottery.RosterGrowsTrans(st0, st, chats[chatId]);
          NonUsersAfterUpsert(rows, chatId, member.id, chats[chatId].users[member.id]);
          forall d | d != chatId
            ensures SameChat(old(db.chatContexts), rows0, db.chatContexts, db.chatUsers, d)
          {
            assert SameChat(old(db.chatContexts), rows0, db.chatContexts, rows, d);
          }
          forall u | u in chats[chatId].users && u !in st0.users
            ensures u in FirstNames(list[..i + 1]) && chats[chatId].users[u].username == FirstNames(list[..i + 1])[u]
          {
            if u != member.id {
              assert u in st.users && chats[chatId].users[u] == st.users[u];
              assert u in names && u != member.id;
            }
          }
          AppendAssoc(st0.userIds, NewAdminIds(list[..i], st0.users.Keys), member.id);
          added := added + 1;
        } else {
          SetSteps(st.users.Keys, {}, member.id);
          assert member.id !in NonUsers(rows, chatId);
          assert member.id in st0.users.Keys || member.id in AdminIds(list[..i]);
          forall u | u in chats[chatId].users && u !in st0.users
            ensures u in FirstNames(list[..i + 1]) && chats[chatId].users[u].username == FirstNames(list[..i + 1])[u]
          {
            assert u in names;
          }
        }
      }
      assert list[..|list|] == list;
    }

    /** The second loop of `scan_chat_users`: record each candidate whose lookup answers. */
    method AddCandidates(chatId: ChatId, candidates: set<UserId>, fetch: UserId -> Option<Profile>)
      returns (added: nat)
      requires Valid() && chatId in chats && candidates !! chats[chatId].users.Keys
      modifies this, db
      ensures Valid() && lastDailySpin == old(lastDailySpin) && db.chatContexts == old(db.chatContexts)
      ensures chatId in chats && chats == old(chats)[chatId := chats[chatId]]
      ensures Lottery.RosterGrows(old(chats[chatId]), chats[chatId])
      ensures chats[chatId].users.Keys == old(chats[chatId].users.Keys) + set u | u in candidates && fetch(u).Some?
      ensures added == |chats[chatId].userIds| - |old(chats[chatId].userIds)|
      ensures forall u :: u in candidates && fetch(u).Some? ==>
        chats[chatId].users[u].username == GetPrettyUsername(fetch(u).value)
      ensures forall d :: d != chatId ==>
        SameChat(old(db.chatContexts), old(db.chatUsers), db.chatContexts, db.chatUsers, d)
    {
      ghost var st0 := chats[chatId];
      ghost var got: set<UserId> := {};
      added := 0;
      var todo := candidates;
      while todo != {}
        invariant todo <= candidates
        invariant Valid() && lastDailySpin == old(lastDailySpin) && db.chatContexts == old(db.chatContexts)
        invariant chatId in chats && chats == old(chats)[chatId := chats[chatId]]
        invariant Lottery.RosterGrows(st0, chats[chatId])
        invariant chats[chatId].users.Keys == st0.users.Keys + got
        invariant forall u :: u in got <==> u in candidates && u !in todo && fetch(u).Some?
        invariant forall u :: u in got ==> chats[chatId].users[u].username == GetPrettyUsername(fetch(u).value)
        invariant forall d :: d != chatId ==>
          SameChat(old(db.chatContexts), old(db.chatUsers), db.chatContexts, db.chatUsers, d)
        invariant added == |chats[chatId].userIds| - |st0.userIds|
        decreases todo
      {
        HasElement(todo);
        var u :| u in todo;
        ghost var st, ctxRows, userRows, gotBefore := chats[chatId], db.chatContexts, db.chatUsers, got;
        assert u !in st.users;
        match fetch(u) {
          case Some(profile) =>
            UpdateUserDef(chatId, TgUser(u, profile));
            UpdateTwice(old(chats), chatId, st, chats[chatId]);
            Lottery.ObserveNewcomer(st, u, GetPrettyUsername(profile));
            Lottery.RosterGrowsTrans(st0, st, chats[chatId]);
            SetSteps(st0.users.Keys, got, u);
            got := got + {u};
            added := added + 1;
          case None =>
        }
        forall d | d != chatId
          ensures SameChat(old(db.chatContexts), old(db.chatUsers), db.chatContexts, db.chatUsers, d)
        {
          assert SameChat(old(db.chatContexts), old(db.chatUsers), ctxRows, userRows, d);
          assert LoadedUsers(db.chatUsers, d) == LoadedUsers(userRows, d);
        }
        forall v | v in got
          ensures chats[chatId].users[v].username == GetPrettyUsername(fetch(v).value)
        {
          if v != u {
            assert v in gotBefore && chats[chatId].users[v] == st.users[v];
          }
        }
        todo := todo - {u};
      }
      ghost var fetched := set u | u in candidates && fetch(u).Some?;
      assert forall u :: u in got <==> u in fetched;
      assert got == fetched;
    }

    /**
     * `scan_chat_users`: record every administrator not yet on the roster,
     * then every user `select_non_users` returns whose lookup answers; count
     * the users added. `admins` is `None` when the administrator list cannot
     * be fetched (the whole scan is skipped); `fetch(u)` is `None` when the
     * lookup of `u` fails (that user is skipped).
     */
    method ScanChatUsers(chatId: ChatId, admins: Option<seq<TgUser>>,
                         fetch: UserId -> Option<Profile>) returns (newUsers: nat)
      requires Valid() && chatId in chats
      modifies this, db
      ensures Valid() && lastDailySpin == old(lastDailySpin) && db.chatContexts == old(db.chatContexts)
      ensures chatId in chats && chats == old(chats)[chatId := chats[chatId]]
      ensures Lottery.RosterGrows(old(chats[chatId]), chats[chatId])
      ensures var found := ScanFound(old(chats[chatId]), old(db.chatUsers), chatId, admins, fetch);
              && chats[chatId].users.Keys == old(chats[chatId].users.Keys) + found
              && found !! old(chats[chatId].users.Keys)
              && newUsers == |found|
      ensures admins.None? ==> chats == old(chats) && db.chatUsers == old(db.chatUsers)
      ensures admins.Some? ==> forall u :: u in chats[chatId].users && u !in old(chats[chatId].users) ==>
        if u in AdminIds(admins.value) then chats[chatId].users[u].username == FirstNames(admins.value)[u]
        else fetch(u).Some? && chats[chatId].users[u].username == GetPrettyUsername(fetch(u).value)
      ensures admins.Some? ==>
        old(chats[chatId].userIds) + NewAdminIds(admins.value, old(chats[chatId].users.Keys)) <= chats[chatId].userIds
      ensures forall d :: d != chatId ==>
        SameChat(old(db.chatContexts), old(db.chatUsers), db.chatContexts, db.chatUsers, d)
    {
      ghost var st0, rows0 := chats[chatId], db.chatUsers;
      if admins.None? {
        assert chats == chats[chatId := st0];
        newUsers := 0;
        return;
      }
      var fromAdmins := AddAdmins(chatId, admins.value);
      ghost var st1, ctxRows1, rows1 := chats[chatId], db.chatContexts, db.chatUsers;
      var candidates := db.SelectNonUsers(chatId);
      assert candidates == ScanCandidates(rows0, chatId, admins.value);
      var fromLookups := AddCandidates(chatId, candidates, fetch);
      UpdateTwice(old(chats), chatId, st1, chats[chatId]);
      newUsers := fromAdmins + fromLookups;
      ScanFoundCount(st0, chats[chatId], rows0, chatId, admins.value, fetch, newUsers);
      forall d | d != chatId
        ensures SameChat(old(db.chatContexts), rows0, db.chatContexts, db.chatUsers, d)
      {
        assert SameChat(old(db.chatContexts), rows0, ctxRows1, rows1, d);
        assert SameChat(ctxRows1, rows1, db.chatContexts, db.chatUsers, d);
      }
      forall u | u in chats[chatId].users && u !in st0.users
        ensures if u in AdminIds(admins.value) then chats[chatId].users[u].username == FirstNames(admins.value)[u]
                else fetch(u).Some? && chats[chatId].users[u].username == GetPrettyUsername(fetch(u).value)
      {
        if u in st1.users {
          assert u in AdminIds(admins.value);
          assert chats[chatId].users[u] == st1.users[u];
        } else {
          assert u !in AdminIds(admins.value);
          assert u in candidates && fetch(u).Some?;
        }
      }
    }
  }
}
