/**
 * Telegram users as the handlers see them, and `get_pretty_username`
 * (src/spinbot.py:211-216).
 */
module Names {
  import opened Wrappers

  type UserId = int

  /** The profile fields of a Telegram user that name selection looks at. */
  datatype Profile = Profile(username: Option<string>, firstName: string, lastName: Option<string>)

  /** A Telegram user: id plus profile. */
  datatype TgUser = TgUser(id: UserId, profile: Profile)

  /** Python truthiness of an optional string: neither `None` nor empty. */
  predicate Truthy(o: Option<string>) {
    o.Some? && o.value != ""
  }

  /**
   * A non-empty @handle wins; otherwise the first name, followed by
   * one space and the last name when there is a last name.
   */
  function GetPrettyUsername(p: Profile): (r: string)
    ensures Truthy(p.username) ==> |r| == |p.username.value| + 1 && r[0] == '@' && r[1..] == p.username.value
    ensures !Truthy(p.username) ==> p.firstName <= r
    ensures !Truthy(p.username) && !Truthy(p.lastName) ==> |r| == |p.firstName|
  {
    if Truthy(p.username) then "@" + p.username.value
    else if Truthy(p.lastName) then p.firstName + " " + p.lastName.value
    else p.firstName
  }

  /** With a handle, the first and last name play no part in the display name. */
  lemma HandleOverridesNames(p: Profile, first: string, last: Option<string>)
    requires Truthy(p.username)
    ensures GetPrettyUsername(p) == GetPrettyUsername(Profile(p.username, first, last))
  {
  }

  /**
   * Without a handle, the last name is appended after one space exactly when
   * it is non-empty.
   */
  lemma LastNameAfterSpace(p: Profile)
    requires !Truthy(p.username)
    ensures Truthy(p.lastName) <==> |GetPrettyUsername(p)| > |p.firstName|
    ensures Truthy(p.lastName) ==> GetPrettyUsername(p)[|p.firstName|..] == " " + p.lastName.value
  {
  }
}
