/** The static user directory and the lookup that stands for authentication. */
module Directory {
  import opened Wrappers
  import opened Records

  /** Every entry is filed under its own `user_id`. */
  ghost predicate WellKeyed(dir: map<string, User>) {
    forall k :: k in dir ==> dir[k].userId == Some(k)
  }

  /** `USER_DIRECTORY` of access_control/query.py. */
  const Users: map<string, User> := map[
    "justin"    := User(Some("justin"),    Some(["biology", "religion"]), Some(["student"])),
    "mary"      := User(Some("mary"),      Some(["history", "religion"]), Some(["professor", "dean"])),
    "ashish"    := User(Some("ashish"),    Some(["physics"]),             Some(["student"])),
    "jun"       := User(Some("jun"),       Some(["history"]),             Some(["analyst"])),
    "eliza"     := User(Some("eliza"),     Some(["physics"]),             Some(["dean"])),
    "stephanie" := User(Some("stephanie"), Some(["physics"]),             Some(["pii"]))
  ]

  /** The entry filed under `id`, or `None` for an id the directory lacks. */
  function Lookup(dir: map<string, User>, id: string): (r: Option<User>)
    ensures r.Some? <==> id in dir
    ensures r.Some? ==> r.value == dir[id]
    ensures WellKeyed(dir) && r.Some? ==> r.value.userId == Some(id)
  {
    if id in dir then Some(dir[id]) else None
  }

  /** `authenticate_user`: a lookup in the fixed directory, never an error of its own. */
  function Authenticate(id: string): (r: Option<User>)
    ensures r.Some? <==> id in {"justin", "mary", "ashish", "jun", "eliza", "stephanie"}
    ensures r.Some? ==> r.value == Users[id]
    ensures r.Some? ==> r.value.userId == Some(id) && |UserGroups(r.value)| > 0 && |UserRoles(r.value)| > 0
  {
    DirectoryWellKeyed();
    Lookup(Users, id)
  }

  lemma DirectoryWellKeyed()
    ensures WellKeyed(Users)
  {
  }
}
