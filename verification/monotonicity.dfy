/** Granting a user more groups or roles, and where that can take visibility away. */
module Monotonicity {
  import opened Wrappers
  import opened Records
  import opened Predicates
  import opened AccessControl

  /** `more` has the same identity as `u` and every group and role `u` has. */
  predicate AtLeastAsPrivileged(more: User, u: User) {
    && more.userId == u.userId
    && (forall g :: g in UserGroups(u) ==> g in UserGroups(more))
    && (forall r :: r in UserRoles(u) ==> r in UserRoles(more))
  }

  /** A shared name stays shared when the first list grows. */
  lemma IntersectsGrows(a: seq<string>, b: seq<string>, c: seq<string>)
    requires Intersects(a, c)
    requires forall x :: x in a ==> x in b
    ensures Intersects(b, c)
  {
    var x :| x in a && x in c;
    assert x in b;
  }

  /** More roles, with the same groups, never hide a visible document. */
  lemma RolesMonotone(u: User, more: User, d: Doc, content: (string, Doc) -> bool)
    requires AtLeastAsPrivileged(more, u)
    requires UserGroups(more) == UserGroups(u)
    ensures Eval(AccessFilter(u), d, content) ==> Eval(AccessFilter(more), d, content)
  {
    if Visible(u, d) && !OwnerAdmits(u, d) && d.roles.Some? {
      IntersectsGrows(UserRoles(u), UserRoles(more), d.roles.value);
    }
  }

  /** Adding a role never makes a visible document invisible. */
  lemma AddRoleKeepsVisible(u: User, role: string, d: Doc, content: (string, Doc) -> bool)
    ensures Eval(AccessFilter(u), d, content) ==> Eval(AccessFilter(AddRole(u, role)), d, content)
  {
    RolesMonotone(u, AddRole(u, role), d, content);
  }

  /** For a user who already has a group, more groups and roles never hide a visible document. */
  lemma PrivilegesMonotone(u: User, more: User, d: Doc, content: (string, Doc) -> bool)
    requires |UserGroups(u)| > 0
    requires AtLeastAsPrivileged(more, u)
    ensures Eval(AccessFilter(u), d, content) ==> Eval(AccessFilter(more), d, content)
  {
    if Visible(u, d) && !OwnerAdmits(u, d) {
      assert UserGroups(u)[0] in UserGroups(more);
      IntersectsGrows(UserGroups(u), UserGroups(more), d.groups.value);
      if d.roles.Some? {
        IntersectsGrows(UserRoles(u), UserRoles(more), d.roles.value);
      }
    }
  }

  /** Adding a group to a user who already has one never makes a visible document invisible. */
  lemma AddGroupKeepsVisible(u: User, g: string, d: Doc, content: (string, Doc) -> bool)
    requires |UserGroups(u)| > 0
    ensures Eval(AccessFilter(u), d, content) ==> Eval(AccessFilter(AddGroup(u, g)), d, content)
  {
    PrivilegesMonotone(u, AddGroup(u, g), d, content);
  }

  /** A user without groups or roles, and a physics document without role requirements that
      someone else owns. */
  const Newcomer: User := User(Some("newcomer"), None, None)
  const PhysicsNotes: Doc := Doc("stephanie", Some(["physics"]), None, None)

  /** Giving a groupless user a first, unrelated group hides a document that the user saw
      before: granting privileges is not monotone as written. */
  lemma FirstGroupCanHide(content: (string, Doc) -> bool)
    ensures Eval(AccessFilter(Newcomer), PhysicsNotes, content)
    ensures !Eval(AccessFilter(AddGroup(Newcomer, "history")), PhysicsNotes, content)
  {
    var more := AddGroup(Newcomer, "history");
    assert UserGroups(more) == ["history"];
    assert !Intersects(["history"], ["physics"]);
  }
}
