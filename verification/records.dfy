/** The two records the filter compiler works on: a user's attributes and a document's metadata. */
module Records {
  import opened Wrappers

  /** The user-attribute dictionary of access_control/query.py. Each field is `None` when the
      dictionary lacks the key; the source tolerates missing `groups` and `roles` keys and
      renders a missing `user_id` as the text `None`. */
  datatype User = User(userId: Option<string>, groups: Option<seq<string>>, roles: Option<seq<string>>)

  /** Document metadata as indexed; list attributes and the project tag may be absent (null). */
  datatype Doc = Doc(owner: string, groups: Option<seq<string>>, roles: Option<seq<string>>, project: Option<string>)

  /** The sentinel owner that makes a document public. */
  const GlobalOwner: string := "global"

  /** The user id as string interpolation renders it: a missing id prints as `None`. */
  function UserIdText(u: User): string {
    match u.userId
    case Some(id) => id
    case None => "None"
  }

  /** The user's groups; a record without a groups key has none. */
  function UserGroups(u: User): seq<string> {
    u.groups.GetOr([])
  }

  /** The user's roles; a record without a roles key has none. */
  function UserRoles(u: User): seq<string> {
    u.roles.GetOr([])
  }

  /** Two name lists share at least one element. */
  predicate Intersects(a: seq<string>, b: seq<string>) {
    exists x :: x in a && x in b
  }

  /** The user with one more group appended to the group list. */
  function AddGroup(u: User, g: string): (r: User)
    ensures r.userId == u.userId && r.roles == u.roles
    ensures UserGroups(r) == UserGroups(u) + [g]
  {
    u.(groups := Some(UserGroups(u) + [g]))
  }

  /** The user with one more role appended to the role list. */
  function AddRole(u: User, role: string): (r: User)
    ensures r.userId == u.userId && r.groups == u.groups
    ensures UserRoles(r) == UserRoles(u) + [role]
  {
    u.(roles := Some(UserRoles(u) + [role]))
  }
}
