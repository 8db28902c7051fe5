/**
 * The state transitions of src/spinbot.py as functions on `ChatState`:
 * roster update (`update_user_def`), the draw of `spin_the_wheel`, the
 * same-day guard of `spin`, the admin edits, and one chat's turn in the loop
 * of `daily_spin`. The methods of `SpinBot.Bot` are proved against these.
 */
module Lottery {
  import opened Wrappers
  import opened Names
  import opened Model
  import HtmlEscaping

  // ---------------------------------------------------------------- roster

  /** `update_user_def` on the chat record: add a newcomer with no wins, or refresh a known name. */
  function Observe(st: ChatState, u: UserId, name: string): (r: ChatState)
    ensures u in r.users && r.users[u].username == name
    ensures r.users.Keys == st.users.Keys + {u}
    ensures forall v :: v in st.users ==> r.users[v].wonTimes == st.users[v].wonTimes
    ensures forall v :: v in st.users && v != u ==> r.users[v] == st.users[v]
    ensures u !in st.users ==> r.userIds == st.userIds + [u] && r.users[u].wonTimes == 0
    ensures u in st.users ==> r.userIds == st.userIds
    ensures RowOf(r) == RowOf(st)
    ensures ChatInvariant(st) ==> ChatInvariant(r)
  {
    if u !in st.users then
      st.(users := st.users[u := UserDef(name, 0)], userIds := st.userIds + [u])
    else
      st.(users := st.users[u := st.users[u].(username := name)])
  }

  /**
   * `st'` extends `st` by newcomers only: the row is the same, the roster is
   * extended at the end, known users keep their records and newcomers have no wins.
   */
  predicate RosterGrows(st: ChatState, st': ChatState) {
    RowOf(st') == RowOf(st) && st.userIds <= st'.userIds &&
    (forall u :: u in st.users ==> u in st'.users && st'.users[u] == st.users[u]) &&
    (forall u :: u in st'.users && u !in st.users ==> st'.users[u].wonTimes == 0)
  }

  lemma RosterGrowsTrans(a: ChatState, b: ChatState, c: ChatState)
    requires RosterGrows(a, b) && RosterGrows(b, c)
    ensures RosterGrows(a, c)
  {
  }

  /** Observing a newcomer grows the roster by exactly that user. */
  lemma ObserveNewcomer(st: ChatState, u: UserId, name: string)
    requires u !in st.users
    ensures RosterGrows(st, Observe(st, u, name))
    ensures |Observe(st, u, name).userIds| == |st.userIds| + 1
  {
  }

  /** Observing the same user twice keeps one roster entry and the later name. */
  lemma ObserveTwice(st: ChatState, u: UserId, first: string, second: string)
    ensures Observe(Observe(st, u, first), u, second) == Observe(st, u, second)
  {
    var a := Observe(Observe(st, u, first), u, second);
    var b := Observe(st, u, second);
    assert a.users == b.users;
  }

  // ------------------------------------------------------------ win totals

  predicate AllIn(ids: seq<UserId>, users: map<UserId, UserDef>) {
    forall i :: 0 <= i < |ids| ==> ids[i] in users
  }

  /** The sum of `won_times` over the listed users. */
  function TotalWins(ids: seq<UserId>, users: map<UserId, UserDef>): int
    requires AllIn(ids, users)
  {
    if ids == [] then 0 else users[ids[0]].wonTimes + TotalWins(ids[1..], users)
  }

  lemma {:induction false} TotalWinsUnaffected(ids: seq<UserId>, users: map<UserId, UserDef>, users': map<UserId, UserDef>)
    requires AllIn(ids, users) && AllIn(ids, users')
    requires forall i :: 0 <= i < |ids| ==> users'[ids[i]].wonTimes == users[ids[i]].wonTimes
    ensures TotalWins(ids, users') == TotalWins(ids, users)
  {
    if ids != [] {
      TotalWinsUnaffected(ids[1..], users, users');
    }
  }

  /** Raising one listed user's counter by one raises the total by exactly one. */
  lemma {:induction false} TotalWinsBump(ids: seq<UserId>, users: map<UserId, UserDef>, users': map<UserId, UserDef>, w: UserId)
    requires AllIn(ids, users) && AllIn(ids, users') && NoDup(ids) && w in ids
    requires users'[w].wonTimes == users[w].wonTimes + 1
    requires forall i :: 0 <= i < |ids| && ids[i] != w ==> users'[ids[i]].wonTimes == users[ids[i]].wonTimes
    ensures TotalWins(ids, users') == TotalWins(ids, users) + 1
  {
    if ids[0] == w {
      assert w !in ids[1..] by {
        forall j | 0 <= j < |ids[1..]| ensures ids[1..][j] != w {
          assert ids[1..][j] == ids[j + 1];
        }
      }
      TotalWinsUnaffected(ids[1..], users, users');
    } else {
      TotalWinsBump(ids[1..], users, users', w);
    }
  }

  // ------------------------------------------------------------------ draw

  /** The user `random.choice(user_ids)` returns when the random source yields index `pick`. */
  function Chosen(st: ChatState, pick: nat): UserId
    requires pick < |st.userIds|
  {
    st.userIds[pick]
  }

  /**
   * The state part of `spin_the_wheel`: the chosen user wins once more, and
   * the chat records winner, time and the current wheel label.
   */
  function Draw(st: ChatState, pick: nat, now: Moment): (r: ChatState)
    requires pick < |st.userIds| && Chosen(st, pick) in st.users
    ensures r.lastWinnerId == Some(Chosen(st, pick)) && r.lastSpin == Some(now) && r.lastWheel == Some(st.wheel)
    ensures r.wheel == st.wheel && r.action == st.action && r.userIds == st.userIds
    ensures r.users.Keys == st.users.Keys
    ensures r.users[Chosen(st, pick)] == st.users[Chosen(st, pick)].(wonTimes := st.users[Chosen(st, pick)].wonTimes + 1)
    ensures forall v :: v in st.users && v != Chosen(st, pick) ==> r.users[v] == st.users[v]
    ensures ChatInvariant(st) ==> ChatInvariant(r)
  {
    var w := Chosen(st, pick);
    var d := st.users[w];
    st.(users := st.users[w := d.(wonTimes := d.wonTimes + 1)],
        lastWinnerId := Some(w), lastSpin := Some(now), lastWheel := Some(st.wheel))
  }

  /** Exactly one increment per draw: the chat's total of wins grows by one. */
  lemma DrawAddsOneWin(st: ChatState, pick: nat, now: Moment)
    requires ChatInvariant(st) && pick < |st.userIds|
    ensures AllIn(st.userIds, Draw(st, pick, now).users)
    ensures TotalWins(st.userIds, Draw(st, pick, now).users) == TotalWins(st.userIds, st.users) + 1
  {
    var r := Draw(st, pick, now);
    TotalWinsBump(st.userIds, st.users, r.users, Chosen(st, pick));
  }

  /** A roster of one: the draw always picks that user. */
  lemma DrawSoleUser(st: ChatState, pick: nat, now: Moment)
    requires |st.userIds| == 1 && pick < 1 && st.userIds[0] in st.users
    ensures Draw(st, pick, now).lastWinnerId == Some(st.userIds[0])
  {
  }

  // ------------------------------------------------------------------ spin

  /** Python truthiness of `last_winner_id`: set and non-zero. */
  predicate WinnerTruthy(st: ChatState) {
    st.lastWinnerId.Some? && st.lastWinnerId.value != 0
  }

  /** The guard of `spin`: a spin is recorded for today's date and has a winner. */
  predicate SpunToday(st: ChatState, today: int) {
    st.lastSpin.Some? && st.lastSpin.value.day == today && WinnerTruthy(st)
  }

  /** What `spin` needs of the random index: a draw can only happen on a non-empty roster. */
  predicate CanSpin(st: ChatState, now: Moment, pick: nat) {
    SpunToday(st, now.day) || (pick < |st.userIds| && Chosen(st, pick) in st.users)
  }

  /** The state part of the `spin` handler: keep today's result, or draw. */
  function SpinStep(st: ChatState, now: Moment, pick: nat): (r: ChatState)
    requires CanSpin(st, now, pick)
    ensures SpunToday(st, now.day) ==> r == st
    ensures !SpunToday(st, now.day) ==> r.lastWinnerId == Some(Chosen(st, pick)) && r.lastSpin == Some(now)
  {
    if SpunToday(st, now.day) then st else Draw(st, pick, now)
  }

  /** After a draw by a user with a non-zero id, the day counts as spun. */
  lemma DrawResolvesDay(st: ChatState, pick: nat, now: Moment, later: Moment)
    requires pick < |st.userIds| && Chosen(st, pick) in st.users && Chosen(st, pick) != 0
    requires later.day == now.day
    ensures SpunToday(Draw(st, pick, now), later.day)
  {
  }

  /**
   * Same-day idempotence: a second `spin` on the same date changes nothing,
   * so two spins add at most one win in total (exactly one when the day was open).
   */
  lemma SpinTwiceSameDay(st: ChatState, now: Moment, later: Moment, p1: nat, p2: nat)
    requires ChatInvariant(st) && 0 !in st.users && later.day == now.day
    requires CanSpin(st, now, p1)
    ensures CanSpin(SpinStep(st, now, p1), later, p2)
    ensures SpinStep(SpinStep(st, now, p1), later, p2) == SpinStep(st, now, p1)
    ensures AllIn(st.userIds, SpinStep(SpinStep(st, now, p1), later, p2).users)
    ensures TotalWins(st.userIds, SpinStep(SpinStep(st, now, p1), later, p2).users)
         == TotalWins(st.userIds, st.users) + (if SpunToday(st, now.day) then 0 else 1)
  {
    if !SpunToday(st, now.day) {
      assert st.userIds[p1] in st.users;
      DrawResolvesDay(st, p1, now, later);
      DrawAddsOneWin(st, p1, now);
    }
  }

  /** The same-day reply of `spin`: the recorded winner's name. */
  function RepeatedWinner(st: ChatState): (name: string)
    requires ChatInvariant(st) && st.lastWinnerId.Some?
    ensures exists i :: 0 <= i < |st.userIds| && st.users[st.userIds[i]].username == name
  {
    var w := st.lastWinnerId.value;
    assert w in st.userIds;
    st.users[w].username
  }

  /**
   * Every later `spin` of the same date answers with the name of the user the
   * first spin drew.
   */
  lemma RepeatedAnswerNamesDrawn(st: ChatState, pick: nat, now: Moment, later: Moment)
    requires ChatInvariant(st) && pick < |st.userIds| && Chosen(st, pick) != 0
    requires !SpunToday(st, now.day) && later.day == now.day
    ensures ChatInvariant(Draw(st, pick, now))
    ensures SpunToday(Draw(st, pick, now), later.day)
    ensures RepeatedWinner(Draw(st, pick, now)) == st.users[Chosen(st, pick)].username
  {
    DrawResolvesDay(st, pick, now, later);
  }

  // ----------------------------------------------------------- admin edits

  /** `reset_daily`: forget the spin time, keep everything else (the last winner too). */
  function ResetDaily(st: ChatState): (r: ChatState)
    ensures r.lastSpin == None && r.lastWinnerId == st.lastWinnerId
    ensures r.(lastSpin := st.lastSpin) == st
    ensures forall today :: !SpunToday(r, today)
    ensures ChatInvariant(st) ==> ChatInvariant(r)
  {
    st.(lastSpin := None)
  }

  /** `setname`: an empty argument is refused; otherwise the escaped argument becomes the wheel. */
  function SetWheel(st: ChatState, args: string): (r: ChatState)
    ensures args == "" ==> r == st
    ensures args != "" ==> r == st.(wheel := r.wheel)
    ensures args != "" ==> '<' !in r.wheel && '>' !in r.wheel && HtmlEscaping.Unescape(r.wheel) == args
    ensures ChatInvariant(st) ==> ChatInvariant(r)
  {
    if args == "" then st
    else
      HtmlEscaping.HtmlEscapeRoundTrip(args);
      st.(wheel := HtmlEscaping.HtmlEscape(args))
  }

  /** `setaction`: the same rule for the action label. */
  function SetAction(st: ChatState, args: string): (r: ChatState)
    ensures args == "" ==> r == st
    ensures args != "" ==> r == st.(action := r.action)
    ensures args != "" ==> '<' !in r.action && '>' !in r.action && HtmlEscaping.Unescape(r.action) == args
    ensures ChatInvariant(st) ==> ChatInvariant(r)
  {
    if args == "" then st
    else
      HtmlEscaping.HtmlEscapeRoundTrip(args);
      st.(action := HtmlEscaping.HtmlEscape(args))
  }

  // --------------------------------------------------------- daily spinner

  const ThrottleMinutes: int := 10
  const GateHour: int := 8

  /** The process-wide throttle: the last run was less than ten minutes ago. */
  predicate Throttled(last: Option<Moment>, now: Moment) {
    last.Some? && now.minute - last.value.minute < ThrottleMinutes
  }

  /** `daily_spin` gets past both early returns. */
  predicate DailyRuns(last: Option<Moment>, now: Moment) {
    !Throttled(last, now) && now.hour >= GateHour
  }

  /** Once a run is committed, every call in the next ten minutes is throttled. */
  lemma RunThrottlesNext(now: Moment, next: Moment)
    requires next.minute < now.minute + ThrottleMinutes
    ensures !DailyRuns(Some(now), next)
  {
  }

  /**
   * The skip test of the daily loop as written: `ctx.last_spin.date == now.date`
   * compares two bound methods, which Python treats as equal only when their
   * receivers are the same object (`sameObject`); it never calls `date()`.
   */
  predicate DailySkipAsWritten(lastSpin: Option<Moment>, now: Moment, sameObject: bool) {
    lastSpin.Some? && sameObject
  }

  /** The skip test evidently intended: the chat already has a spin dated today. */
  predicate DailySkipIntended(lastSpin: Option<Moment>, now: Moment) {
    lastSpin.Some? && lastSpin.value.day == now.day
  }

  /** What a per-chat turn needs of the random index: any index on a non-empty roster. */
  predicate PickFits(st: ChatState, pick: nat) {
    pick < |st.userIds| || st.userIds == []
  }

  /**
   * One chat's turn in `daily_spin`, with the skip test as written (the cached
   * timestamp is never the object `now`). `fetchOk` is whether `get_chat` and
   * `get_chat_administrators` succeeded; a failure, an empty roster
   * (`random.choice` raises) or a missing user record (`KeyError`) is caught
   * and leaves the chat as it was. A chat that gets through draws as `spin`
   * would for a message from it (see `DailyChatStepAsWritten` for the call as
   * the loop makes it).
   */
  function DailyChatStep(st: ChatState, now: Moment, fetchOk: bool, pick: nat): (r: ChatState)
    requires PickFits(st, pick)
    ensures r == st || (st.userIds != [] && !SpunToday(st, now.day) && r.lastSpin == Some(now) && r.lastWinnerId == Some(Chosen(st, pick)))
  {
    if DailySkipAsWritten(st.lastSpin, now, false) || !fetchOk then st
    else if SpunToday(st, now.day) then st
    else if st.userIds == [] || Chosen(st, pick) !in st.users then st
    else Draw(st, pick, now)
  }

  /** Resolved chats are left untouched by the daily pass. */
  lemma DailyLeavesResolved(st: ChatState, now: Moment, fetchOk: bool, pick: nat)
    requires PickFits(st, pick) && SpunToday(st, now.day)
    ensures DailyChatStep(st, now, fetchOk, pick) == st
  {
  }

  /** A pending chat that can be reached is spun exactly once. */
  lemma DailySpinsPending(st: ChatState, now: Moment, pick: nat)
    requires ChatInvariant(st) && pick < |st.userIds| && !SpunToday(st, now.day)
    ensures DailyChatStep(st, now, true, pick) == Draw(st, pick, now)
    ensures AllIn(st.userIds, DailyChatStep(st, now, true, pick).users)
    ensures TotalWins(st.userIds, DailyChatStep(st, now, true, pick).users) == TotalWins(st.userIds, st.users) + 1
  {
    DrawAddsOneWin(st, pick, now);
  }

  /**
   * Once a daily pass has reached a chat with a roster, a second pass on the
   * same date changes nothing.
   */
  lemma DailyTwiceSameDay(st: ChatState, now: Moment, later: Moment, ok2: bool, p1: nat, p2: nat)
    requires ChatInvariant(st) && 0 !in st.users && later.day == now.day && st.userIds != []
    requires PickFits(st, p1) && PickFits(st, p2)
    ensures PickFits(DailyChatStep(st, now, true, p1), p2)
    ensures DailyChatStep(DailyChatStep(st, now, true, p1), later, ok2, p2) == DailyChatStep(st, now, true, p1)
  {
    var r := DailyChatStep(st, now, true, p1);
    if r != st {
      assert st.userIds != [] && Chosen(st, p1) in st.users && Chosen(st, p1) != 0;
      assert r == Draw(st, p1, now);
      DrawResolvesDay(st, p1, now, later);
    }
  }

  /** A forced draw resolves the day for the automatic path. */
  lemma ForcedDrawResolvesDaily(st: ChatState, pick: nat, now: Moment, fetchOk: bool, p2: nat)
    requires pick < |st.userIds| && Chosen(st, pick) in st.users && Chosen(st, pick) != 0
    requires PickFits(Draw(st, pick, now), p2)
    ensures DailyChatStep(Draw(st, pick, now), now, fetchOk, p2) == Draw(st, pick, now)
  {
    DrawResolvesDay(st, pick, now, now);
  }

  /** The daily turn with the intended skip test in place of the as-written one. */
  function DailyChatStepIntended(st: ChatState, now: Moment, fetchOk: bool, pick: nat): (r: ChatState)
    requires PickFits(st, pick)
    ensures DailySkipIntended(st.lastSpin, now) ==> r == st
  {
    if DailySkipIntended(st.lastSpin, now) || !fetchOk then st
    else if SpunToday(st, now.day) then st
    else if st.userIds == [] || Chosen(st, pick) !in st.users then st
    else Draw(st, pick, now)
  }

  /** The as-written skip test lets through a chat already spun earlier the same day. */
  lemma DailySkipNeverFires()
    ensures var spun := Some(Moment(600, 20, 10));
            var now := Moment(615, 20, 10);
            DailySkipIntended(spun, now) && !DailySkipAsWritten(spun, now, false)
  {
  }

  /**
   * The guard inside `spin` catches what the broken skip test misses: for a
   * cached chat (no user id 0), both versions of the daily turn agree.
   */
  lemma DailySkipHarmless(st: ChatState, now: Moment, fetchOk: bool, pick: nat)
    requires ChatInvariant(st) && 0 !in st.users && PickFits(st, pick)
    ensures DailyChatStep(st, now, fetchOk, pick) == DailyChatStepIntended(st, now, fetchOk, pick)
  {
    if DailySkipIntended(st.lastSpin, now) {
      assert SpunToday(st, now.day);
    }
  }

  /**
   * The daily turn as the loop calls `spin`: it passes the `Chat` returned by
   * `get_chat` where a message is expected, so on a pending chat the lookup
   * of `message.chat` fails before anything changes and the loop's `except`
   * catches it; a resolved chat takes the answer branch, which changes no
   * state either. Every turn ends as if the lookups had failed.
   */
  function DailyChatStepAsWritten(st: ChatState, now: Moment, fetchOk: bool, pick: nat): (r: ChatState)
    requires PickFits(st, pick)
    ensures r == DailyChatStep(st, now, false, pick)
  {
    st
  }

  /** A pending chat with one user: the intended turn draws that user, the turn as written does nothing. */
  lemma DailyDrawLostAsWritten()
    ensures var st := ChatState(DefaultWheel, DefaultAction, None, None, None, [7], map[7 := UserDef("@ann", 0)]);
            var now := Moment(615, 20, 10);
            DailyChatStepAsWritten(st, now, true, 0) == st &&
            DailyChatStep(st, now, true, 0) != st &&
            DailyChatStep(st, now, true, 0).lastWinnerId == Some(7)
  {
    var st := ChatState(DefaultWheel, DefaultAction, None, None, None, [7], map[7 := UserDef("@ann", 0)]);
    var now := Moment(615, 20, 10);
    DailySpinsPending(st, now, 0);
  }
}
