/** The group clause as the schema describes a document's groups (access_control/setup.py:31-32):
    a user's group tests are always required, so a user without groups passes no group test. */
module StrictGroups {
  import opened Wrappers
  import opened Records
  import opened Predicates
  import opened AccessControl
  import opened Monotonicity

  /** `doc.groups is not null`, always conjoined with the (possibly empty) disjunction of the
      user's group tests; an empty disjunction is false. */
  function StrictGroupClause(u: User): (r: Expr)
    ensures forall d: Doc, content ::
      Eval(r, d, content) <==> d.groups.Some? && Intersects(UserGroups(u), d.groups.value)
  {
    GroupTestsMeaning(UserGroups(u));
    And([IsNotNull(Groups), Or(Members(Groups, UserGroups(u)))])
  }

  /** The access filter built from the strict group clause. */
  function StrictAccessFilter(u: User): (r: Expr)
    ensures forall d: Doc, content :: Eval(r, d, content) <==>
      OwnerAdmits(u, d) || (d.groups.Some? && Intersects(UserGroups(u), d.groups.value) && RoleAdmits(u, d))
  {
    var groupRole := And([StrictGroupClause(u), RoleClause(u)]);
    EvalAndPair(StrictGroupClause(u), RoleClause(u));
    EvalOrPair(OwnerClause(u), groupRole);
    Or([OwnerClause(u), groupRole])
  }

  /** The final filter built from the strict access filter. */
  function StrictFinalFilter(u: User, filter: Option<string>): (r: Expr)
    ensures forall d: Doc, content :: Eval(r, d, content) <==>
      Eval(StrictAccessFilter(u), d, content) && (Truthy(filter) ==> content(filter.value, d))
  {
    Compose(StrictAccessFilter(u), filter)
  }

  /** For users with at least one group, the strict filter is the compiled filter itself. */
  lemma StrictAgreesWhenGrouped(u: User, filter: Option<string>)
    requires |UserGroups(u)| > 0
    ensures StrictAccessFilter(u) == AccessFilter(u)
    ensures StrictFinalFilter(u, filter) == FinalFilter(u, filter)
  {
  }

  /** The strict filter never shows more than the compiled one. */
  lemma StrictNeverWider(u: User, d: Doc, content: (string, Doc) -> bool)
    ensures Eval(StrictAccessFilter(u), d, content) ==> Eval(AccessFilter(u), d, content)
  {
  }

  /** With the strict clause, any gain of groups or roles keeps every visible document
      visible, including a groupless user's first group. */
  lemma StrictMonotone(u: User, more: User, d: Doc, content: (string, Doc) -> bool)
    requires AtLeastAsPrivileged(more, u)
    ensures Eval(StrictAccessFilter(u), d, content) ==> Eval(StrictAccessFilter(more), d, content)
  {
    if Eval(StrictAccessFilter(u), d, content) && !OwnerAdmits(u, d) {
      IntersectsGrows(UserGroups(u), UserGroups(more), d.groups.value);
      if d.roles.Some? {
        IntersectsGrows(UserRoles(u), UserRoles(more), d.roles.value);
      }
    }
  }

  /** The counterexample to monotonicity of the compiled filter is monotone here. */
  lemma StrictFirstGroup(content: (string, Doc) -> bool)
    ensures !Eval(StrictAccessFilter(Newcomer), PhysicsNotes, content)
    ensures Eval(StrictAccessFilter(AddGroup(Newcomer, "physics")), PhysicsNotes, content)
  {
    assert "physics" in UserGroups(AddGroup(Newcomer, "physics"));
  }
}
