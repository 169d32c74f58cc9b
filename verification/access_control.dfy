/** The access-control filter compiler: the owner, group and role clauses, their combination
    into one access filter, and its conjunction with a caller's content filter. */
module AccessControl {
  import opened Wrappers
  import opened Records
  import opened Predicates

  // ---------------------------------------------------------------------------
  // The access rules, stated directly over user and document attributes
  // ---------------------------------------------------------------------------

  /** Ownership pathway: public documents and the user's own documents. */
  predicate OwnerAdmits(u: User, d: Doc) {
    d.owner == GlobalOwner || d.owner == UserIdText(u)
  }

  /** Group test: the document has groups, and either the user has no groups at all or the
      two group lists share a name. */
  predicate GroupAdmits(u: User, d: Doc) {
    d.groups.Some? && (|UserGroups(u)| == 0 || Intersects(UserGroups(u), d.groups.value))
  }

  /** Role test: the document has no role requirement, or it names a role the user holds. */
  predicate RoleAdmits(u: User, d: Doc) {
    d.roles.None? || Intersects(UserRoles(u), d.roles.value)
  }

  /** A document is visible through ownership, or through the group and role tests together. */
  predicate Visible(u: User, d: Doc) {
    OwnerAdmits(u, d) || (GroupAdmits(u, d) && RoleAdmits(u, d))
  }

  /** Python truthiness of the content filter: `None` and `""` both mean "no filter". */
  predicate Truthy(filter: Option<string>) {
    filter.Some? && filter.value != ""
  }

  // ---------------------------------------------------------------------------
  // The compiler
  // ---------------------------------------------------------------------------

  /** One `'v' IN doc.f` test per name, in list order. */
  function Members(f: Field, vs: seq<string>): seq<Expr>
  {
    seq(|vs|, i requires 0 <= i < |vs| => Contains(f, vs[i]))
  }

  /** The disjunction of membership tests holds exactly when the attribute is present and
      shares a name with `vs`. */
  lemma {:induction false} AnyMember(f: Field, vs: seq<string>, d: Doc, content: (string, Doc) -> bool)
    ensures Eval(Or(Members(f, vs)), d, content) <==>
            ListValue(d, f).Some? && Intersects(vs, ListValue(d, f).value)
  {
    var ms := Members(f, vs);
    if Eval(Or(ms), d, content) {
      var i :| 0 <= i < |ms| && Eval(ms[i], d, content);
      assert vs[i] in vs && vs[i] in ListValue(d, f).value;
    }
    if ListValue(d, f).Some? && Intersects(vs, ListValue(d, f).value) {
      var x :| x in vs && x in ListValue(d, f).value;
      var i :| 0 <= i < |vs| && vs[i] == x;
      assert Eval(ms[i], d, content);
    }
  }

  /** `doc.groups is not null` conjoined with one membership test per name holds exactly on
      documents with groups sharing a name. */
  lemma GroupTestsMeaning(gs: seq<string>)
    ensures forall d: Doc, content :: Eval(And([IsNotNull(Groups), Or(Members(Groups, gs))]), d, content) <==>
      d.groups.Some? && Intersects(gs, d.groups.value)
  {
    EvalAndPair(IsNotNull(Groups), Or(Members(Groups, gs)));
    forall d: Doc, content {
      AnyMember(Groups, gs, d, content);
    }
  }

  /** `doc.roles is null` disjoined with one membership test per name holds exactly on
      documents without roles or with roles sharing a name. */
  lemma RoleTestsMeaning(rs: seq<string>)
    ensures forall d: Doc, content :: Eval(Or([IsNull(Roles), Or(Members(Roles, rs))]), d, content) <==>
      d.roles.None? || Intersects(rs, d.roles.value)
  {
    EvalOrPair(IsNull(Roles), Or(Members(Roles, rs)));
    forall d: Doc, content {
      AnyMember(Roles, rs, d, content);
    }
  }

  /** `doc.owner IN ('global', '<user id>')`. */
  function OwnerClause(u: User): (r: Expr)
    ensures forall d: Doc, content :: Eval(r, d, content) <==> OwnerAdmits(u, d)
  {
    In(Owner, [GlobalOwner, UserIdText(u)])
  }

  /** `doc.groups is not null`, conjoined with one membership test per user group when the
      user has any. */
  function GroupClause(u: User): (r: Expr)
    ensures forall d: Doc, content :: Eval(r, d, content) <==> GroupAdmits(u, d)
  {
    var gs := UserGroups(u);
    if |gs| > 0 then
      GroupTestsMeaning(gs);
      And([IsNotNull(Groups), Or(Members(Groups, gs))])
    else
      IsNotNull(Groups)
  }

  /** `doc.roles is null`, disjoined with one membership test per user role when the user has
      any. */
  function RoleClause(u: User): (r: Expr)
    ensures forall d: Doc, content :: Eval(r, d, content) <==> RoleAdmits(u, d)
  {
    var rs := UserRoles(u);
    if |rs| > 0 then
      RoleTestsMeaning(rs);
      Or([IsNull(Roles), Or(Members(Roles, rs))])
    else
      IsNull(Roles)
  }

  /** `(group clause) AND (role clause)`. */
  function GroupRoleClause(u: User): (r: Expr)
    ensures forall d: Doc, content :: Eval(r, d, content) <==> GroupAdmits(u, d) && RoleAdmits(u, d)
  {
    EvalAndPair(GroupClause(u), RoleClause(u));
    And([GroupClause(u), RoleClause(u)])
  }

  /** `build_access_control_filter`: `(owner clause) OR (group-role clause)`. */
  function AccessFilter(u: User): (r: Expr)
    ensures forall d: Doc, content :: Eval(r, d, content) <==> Visible(u, d)
  {
    EvalOrPair(OwnerClause(u), GroupRoleClause(u));
    Or([OwnerClause(u), GroupRoleClause(u)])
  }

  /** The access filter in parentheses, followed by ` AND (filter)` when the filter is truthy.
      `And([a])` prints as `(a)`, so both shapes are one conjunction. */
  function Compose(access: Expr, filter: Option<string>): (r: Expr)
    ensures forall d: Doc, content ::
      Eval(r, d, content) <==> Eval(access, d, content) && (Truthy(filter) ==> content(filter.value, d))
  {
    if Truthy(filter) then
      EvalAndPair(access, Content(filter.value));
      And([access, Content(filter.value)])
    else
      EvalAndOne(access);
      And([access])
  }

  /** The final filter `query` sends for a user and an optional content filter. */
  function FinalFilter(u: User, filter: Option<string>): (r: Expr)
    ensures forall d: Doc, content ::
      Eval(r, d, content) <==> Visible(u, d) && (Truthy(filter) ==> content(filter.value, d))
  {
    Compose(AccessFilter(u), filter)
  }

  // ---------------------------------------------------------------------------
  // Properties of the compiled filter
  // ---------------------------------------------------------------------------

  /** Owners and the public sentinel see the document whatever its groups and roles. */
  lemma OwnershipPathway(u: User, d: Doc, content: (string, Doc) -> bool)
    requires d.owner == GlobalOwner || d.owner == UserIdText(u)
    ensures Eval(AccessFilter(u), d, content)
  {
  }

  /** A document without groups is visible to its owner and, if public, to everyone, and to
      no one else. */
  lemma PrivateDocument(u: User, d: Doc, content: (string, Doc) -> bool)
    requires d.groups.None?
    ensures Eval(AccessFilter(u), d, content) <==> d.owner == GlobalOwner || d.owner == UserIdText(u)
  {
  }

  /** A user with groups passes the group clause exactly on documents sharing a group; with
      no shared group the group-role pathway is closed whatever the document's roles. */
  lemma GroupedUser(u: User, d: Doc, content: (string, Doc) -> bool)
    requires |UserGroups(u)| > 0
    ensures Eval(GroupClause(u), d, content) <==> d.groups.Some? && Intersects(UserGroups(u), d.groups.value)
    ensures d.groups.Some? && !Intersects(UserGroups(u), d.groups.value) ==> !Eval(GroupRoleClause(u), d, content)
  {
  }

  /** A user without groups gets the bare presence test: any document with groups passes. */
  lemma GrouplessUser(u: User, d: Doc, content: (string, Doc) -> bool)
    requires |UserGroups(u)| == 0
    ensures GroupClause(u) == IsNotNull(Groups)
    ensures Eval(GroupClause(u), d, content) <==> d.groups.Some?
  {
  }

  /** The role clause passes documents without roles and documents naming a role the user
      holds; a user without roles passes only the former. */
  lemma RoleClauseMeaning(u: User, d: Doc, content: (string, Doc) -> bool)
    ensures Eval(RoleClause(u), d, content) <==> d.roles.None? || Intersects(UserRoles(u), d.roles.value)
    ensures |UserRoles(u)| == 0 ==> (Eval(RoleClause(u), d, content) <==> d.roles.None?)
  {
  }

  /** A document whose roles list is present but empty passes no role test, so only its owner
      sees it, or everyone if it is public. */
  lemma EmptyRoleList(u: User, d: Doc, content: (string, Doc) -> bool)
    requires d.roles == Some([])
    ensures Eval(AccessFilter(u), d, content) <==> OwnerAdmits(u, d)
  {
  }

  /** The final filter is the access filter conjoined with the content filter, and `None` and
      `""` give the same filter. */
  lemma ConjunctionLaw(u: User, filter: Option<string>, d: Doc, content: (string, Doc) -> bool)
    ensures Truthy(filter) ==>
      (Eval(FinalFilter(u, filter), d, content) <==> Eval(AccessFilter(u), d, content) && content(filter.value, d))
    ensures !Truthy(filter) ==>
      (Eval(FinalFilter(u, filter), d, content) <==> Eval(AccessFilter(u), d, content))
    ensures FinalFilter(u, None) == FinalFilter(u, Some(""))
  {
  }
}
