/**
 * The ordering of `win_stats` (src/spinbot.py:450-461):
 * `sorted(users, key=won_key, reverse=True)`, a stable sort by `won_times`,
 * most wins first, ties in the order of `context.users`.
 */
module WinStats {
  import opened Names
  import opened Model
  import Lottery

  predicate SortedByWinsDesc(s: seq<UserDef>) {
    forall i, j :: 0 <= i < j < |s| ==> s[i].wonTimes >= s[j].wonTimes
  }

  /** The entries with exactly `w` wins, in their order in `s`. */
  function WithWins(s: seq<UserDef>, w: int): seq<UserDef> {
    if s == [] then []
    else (if s[0].wonTimes == w then [s[0]] else []) + WithWins(s[1..], w)
  }

  /** Inserts `x` in front of the first entry with no more wins than `x`. */
  function Insert(x: UserDef, t: seq<UserDef>): (r: seq<UserDef>)
    requires SortedByWinsDesc(t)
    ensures SortedByWinsDesc(r)
    ensures multiset(r) == multiset(t) + multiset{x}
    ensures r[0] == x || (t != [] && r[0] == t[0])
  {
    if t == [] || t[0].wonTimes <= x.wonTimes then
      [x] + t
    else
      var tail := t[1..];
      var rest := Insert(x, tail);
      assert t == [t[0]] + tail;
      assert multiset(t) == multiset{t[0]} + multiset(tail);
      SortedCons(t[0], rest);
      [t[0]] + rest
  }

  lemma SortedCons(y: UserDef, s: seq<UserDef>)
    requires SortedByWinsDesc(s) && (s == [] || s[0].wonTimes <= y.wonTimes)
    ensures SortedByWinsDesc([y] + s)
  {
    var r := [y] + s;
    forall i, j | 0 <= i < j < |r| ensures r[i].wonTimes >= r[j].wonTimes {
      if i == 0 {
        assert r[j] == s[j - 1];
      } else {
        assert r[i] == s[i - 1] && r[j] == s[j - 1];
      }
    }
  }

  /** Insertion sort: sorted, most wins first, and a permutation of the input. */
  function SortByWins(s: seq<UserDef>): (r: seq<UserDef>)
    ensures SortedByWinsDesc(r)
    ensures multiset(r) == multiset(s)
  {
    if s == [] then []
    else
      assert s == [s[0]] + s[1..];
      Insert(s[0], SortByWins(s[1..]))
  }

  lemma WithWinsCons(x: UserDef, t: seq<UserDef>, w: int)
    ensures WithWins([x] + t, w) == (if x.wonTimes == w then [x] else []) + WithWins(t, w)
  {
    assert ([x] + t)[1..] == t;
  }

  lemma {:induction false} InsertStable(x: UserDef, t: seq<UserDef>, w: int)
    requires SortedByWinsDesc(t)
    ensures WithWins(Insert(x, t), w) == WithWins([x] + t, w)
  {
    if t == [] || t[0].wonTimes <= x.wonTimes {
    } else {
      var t0, tail := t[0], t[1..];
      assert t == [t0] + tail;
      var keep0: seq<UserDef> := if t0.wonTimes == w then [t0] else [];
      var keepX: seq<UserDef> := if x.wonTimes == w then [x] else [];
      assert x.wonTimes == w ==> keep0 == [];
      calc {
        WithWins(Insert(x, t), w);
        WithWins([t0] + Insert(x, tail), w);
        { WithWinsCons(t0, Insert(x, tail), w); }
        keep0 + WithWins(Insert(x, tail), w);
        { InsertStable(x, tail, w); }
        keep0 + WithWins([x] + tail, w);
        { WithWinsCons(x, tail, w); }
        keep0 + (keepX + WithWins(tail, w));
        keepX + (keep0 + WithWins(tail, w));
        { WithWinsCons(t0, tail, w); }
        keepX + WithWins(t, w);
        { WithWinsCons(x, t, w); }
        WithWins([x] + t, w);
      }
    }
  }

  /**
   * Stability: for every win count, the users with that count appear in the
   * result in the same order as in the input.
   */
  lemma {:induction false} SortByWinsStable(s: seq<UserDef>, w: int)
    ensures WithWins(SortByWins(s), w) == WithWins(s, w)
  {
    if s != [] {
      var rest := SortByWins(s[1..]);
      calc {
        WithWins(SortByWins(s), w);
        WithWins(Insert(s[0], rest), w);
        { InsertStable(s[0], rest, w); }
        WithWins([s[0]] + rest, w);
        { WithWinsCons(s[0], rest, w); }
        (if s[0].wonTimes == w then [s[0]] else []) + WithWins(rest, w);
        { SortByWinsStable(s[1..], w); }
        (if s[0].wonTimes == w then [s[0]] else []) + WithWins(s[1..], w);
        { WithWinsCons(s[0], s[1..], w); assert s == [s[0]] + s[1..]; }
        WithWins(s, w);
      }
    }
  }

  /** `context.users.values()`: the records in roster order, which is their insertion order. */
  function UsersInOrder(ids: seq<UserId>, users: map<UserId, UserDef>): (r: seq<UserDef>)
    requires Lottery.AllIn(ids, users)
    ensures |r| == |ids| && forall i :: 0 <= i < |ids| ==> r[i] == users[ids[i]]
  {
    if ids == [] then [] else [users[ids[0]]] + UsersInOrder(ids[1..], users)
  }

  /** The records `/winstats` lists, in the order it lists them. */
  function WinStatsOrder(st: ChatState): (r: seq<UserDef>)
    requires ChatInvariant(st)
    ensures SortedByWinsDesc(r)
    ensures multiset(r) == multiset(UsersInOrder(st.userIds, st.users))
  {
    SortByWins(UsersInOrder(st.userIds, st.users))
  }
}
