/**
 * The records of src/spinbot.py: `UserDef`, the rows of the two tables, and
 * `ChatContext` (the mutable per-chat object of the code), together with the
 * value `ChatState` that describes a `ChatContext` at one moment and that the
 * cache of `SpinBot.Bot` holds.
 */
module Model {
  import opened Wrappers
  import opened Names

  type ChatId = int

  /**
   * What `here_now()` returns, as far as the core looks at it: an absolute
   * minute count (for the throttle), the calendar date (for "already spun
   * today") and the hour of the day (for the gate). The date and hour are
   * those of the UTC wall time, which `here_now` labels with the bot's zone
   * without converting it.
   */
  datatype Moment = Moment(minute: int, day: int, hour: int)

  /** One participant of one chat: display name and win counter. */
  datatype UserDef = UserDef(username: string, wonTimes: int)

  /** A row of `chat_contexts`: every `ChatContext` field except the roster. */
  datatype ChatRow = ChatRow(
    wheel: string,
    action: string,
    lastWinnerId: Option<UserId>,
    lastWheel: Option<string>,
    lastSpin: Option<Moment>)

  /** The fields of a `ChatContext`, as a value. */
  datatype ChatState = ChatState(
    wheel: string,
    action: string,
    lastWinnerId: Option<UserId>,
    lastWheel: Option<string>,
    lastSpin: Option<Moment>,
    userIds: seq<UserId>,
    users: map<UserId, UserDef>)

  const DefaultWheel: string := "пижма"
  const DefaultAction: string := "запутать"

  /** `ChatContext()`: default labels, nothing spun, nobody on the roster. */
  function DefaultState(): ChatState {
    ChatState(DefaultWheel, DefaultAction, None, None, None, [], map[])
  }

  /** The part of a chat that `upsert_chat` writes. */
  function RowOf(st: ChatState): ChatRow {
    ChatRow(st.wheel, st.action, st.lastWinnerId, st.lastWheel, st.lastSpin)
  }

  predicate NoDup(s: seq<UserId>) {
    forall i, j :: 0 <= i < j < |s| ==> s[i] != s[j]
  }

  /** `user_ids` lists each key of `users` exactly once. */
  predicate RosterMatches(ids: seq<UserId>, users: map<UserId, UserDef>) {
    NoDup(ids) &&
    (forall i :: 0 <= i < |ids| ==> ids[i] in users) &&
    (forall u :: u in users ==> u in ids)
  }

  /**
   * What every chat in the cache satisfies: the roster matches the user map,
   * the last winner is on the roster, and a recorded spin has a winner.
   */
  predicate ChatInvariant(st: ChatState) {
    RosterMatches(st.userIds, st.users) &&
    (st.lastWinnerId.Some? ==> st.lastWinnerId.value in st.users) &&
    (st.lastSpin.Some? ==> st.lastWinnerId.Some?)
  }

  /** A duplicate-free roster listing exactly the keys of `users` is as long as there are users. */
  lemma {:induction false} RosterSize(ids: seq<UserId>, users: map<UserId, UserDef>)
    requires RosterMatches(ids, users)
    ensures |ids| == |users.Keys|
    decreases |ids|
  {
    if ids != [] {
      var last := ids[|ids| - 1];
      var init := ids[..|ids| - 1];
      var rest := users - {last};
      forall u | u in rest ensures u in init {
        var i :| 0 <= i < |ids| && ids[i] == u;
        assert i != |ids| - 1;
        assert init[i] == u;
      }
      forall i | 0 <= i < |init| ensures init[i] in rest {
        assert ids[i] != last;
      }
      RosterSize(init, rest);
      assert users.Keys == rest.Keys + {last};
    } else {
      assert forall u :: u in users.Keys ==> u in ids;
      assert users.Keys == {};
    }
  }

  /** A non-empty set has an element (what `:|` over a set needs). */
  lemma HasElement(s: set<int>)
    requires s != {}
    ensures exists x :: x in s
  {
    if forall x :: x !in s {
      assert false;
    }
  }

  /** Appending one element after a concatenation. */
  lemma AppendAssoc<T>(a: seq<T>, b: seq<T>, x: T)
    ensures a + b + [x] == a + (b + [x])
  {
  }

  /** Overwriting a key twice keeps the second value. */
  lemma UpdateTwice<K, V>(m: map<K, V>, k: K, a: V, b: V)
    ensures m[k := a][k := b] == m[k := b]
  {
  }

  /** Set algebra the roster loops rely on, stated once over abstract sets. */
  lemma SetSteps(n: set<int>, a: set<int>, x: int)
    ensures (n - a) - {x} == n - (a + {x})
    ensures n + a + {x} == n + (a + {x})
    ensures x in n ==> n + {x} == n
    ensures x !in n - a ==> n - (a + {x}) == n - a
  {
  }

  /** The mutable per-chat record (`ChatContext` at src/spinbot.py:78-86). */
  class ChatContext {
    var wheel: string
    var action: string
    var lastWinnerId: Option<UserId>
    var lastWheel: Option<string>
    var lastSpin: Option<Moment>
    var userIds: seq<UserId>
    var users: map<UserId, UserDef>

    function State(): ChatState
      reads this
    {
      ChatState(wheel, action, lastWinnerId, lastWheel, lastSpin, userIds, users)
    }

    constructor ()
      ensures State() == DefaultState()
    {
      wheel, action := DefaultWheel, DefaultAction;
      lastWinnerId, lastWheel, lastSpin := None, None, None;
      userIds, users := [], map[];
    }
  }
}
