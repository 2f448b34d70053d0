/** The Telegram user record of internal/model/user.go and its display name. */
module UserModel {
  import opened Text

  /**
   * One row of the `users` table. `telegramId` carries the unique index; the last-seen
   * and created/updated timestamps are not kept.
   */
  datatype User = User(
    id: nat,
    telegramId: Int64,
    username: string,
    firstName: string,
    lastName: string,
    language: string,
    isAdmin: bool,
    isActive: bool)

  const FallbackPrefix := "User_"

  /**
   * The display name: first and last name, else the first name, else "@" and the
   * username, else "User_" and the Telegram ID. It is never empty.
   */
  function GetFullName(u: User): (r: string)
    ensures r != ""
    ensures u.firstName != "" ==> HasPrefix(r, u.firstName)
    ensures u.firstName != "" && u.lastName != "" ==> r == u.firstName + " " + u.lastName
    ensures u.firstName != "" && u.lastName == "" ==> r == u.firstName
    ensures u.firstName == "" && u.username != "" ==> r == "@" + u.username
    ensures u.firstName == "" && u.username == "" ==> HasPrefix(r, FallbackPrefix)
  {
    if u.firstName != "" && u.lastName != "" then u.firstName + " " + u.lastName
    else if u.firstName != "" then u.firstName
    else if u.username != "" then "@" + u.username
    else FallbackPrefix + IntToDecimal(u.telegramId)
  }

  /**
   * A user with neither first name nor username is shown by an ID that reads back as
   * their Telegram ID, so two such users never share a display name.
   */
  lemma FallbackNameIdentifiesUser(u: User)
    requires u.firstName == "" && u.username == ""
    ensures Atoi(GetFullName(u)[|FallbackPrefix|..]) == u.telegramId
  {
    var r := GetFullName(u);
    assert r[|FallbackPrefix|..] == IntToDecimal(u.telegramId);
    AtoiOfDecimal(u.telegramId);
  }

  /** Two users without first name or username get the same name only with the same ID. */
  lemma FallbackNamesDistinct(u: User, v: User)
    requires u.firstName == "" && u.username == ""
    requires v.firstName == "" && v.username == ""
    requires GetFullName(u) == GetFullName(v)
    ensures u.telegramId == v.telegramId
  {
    FallbackNameIdentifiesUser(u);
    FallbackNameIdentifiesUser(v);
  }
}
