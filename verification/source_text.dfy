/** The filter strings exactly as `build_access_control_filter` and `query` concatenate them,
    and the proof that printing the compiled expression tree yields the same text. */
module SourceText {
  import opened Wrappers
  import opened Records
  import opened Text
  import opened Predicates
  import opened AccessControl
  import Directory

  /** The owner test with the user id interpolated between single quotes. */
  function OwnerClauseText(u: User): string {
    "doc.owner IN ('global', '" + UserIdText(u) + "')"
  }

  /** One parenthesised, quoted membership check per name, in list order, for either list
      attribute. */
  function MembershipChecks(names: seq<string>, attribute: string): seq<string> {
    seq(|names|, i requires 0 <= i < |names| => "('" + names[i] + "' IN " + attribute + ")")
  }

  /** The presence test, wrapped and conjoined with the joined checks when there are any. */
  function GroupClauseText(u: User): string {
    var base := "doc.groups is not null";
    var checks := MembershipChecks(UserGroups(u), "doc.groups");
    if |checks| > 0 then "(" + base + ") AND (" + Join(checks, " OR ") + ")" else base
  }

  /** The absence test, wrapped and disjoined with the joined checks when there are any. */
  function RoleClauseText(u: User): string {
    var base := "doc.roles is null";
    var checks := MembershipChecks(UserRoles(u), "doc.roles");
    if |checks| > 0 then "(" + base + ") OR (" + Join(checks, " OR ") + ")" else base
  }

  /** The owner text, or the group and role texts together, each level in parentheses. */
  function AccessFilterText(u: User): string {
    var groupRole := "(" + GroupClauseText(u) + ") AND (" + RoleClauseText(u) + ")";
    "(" + OwnerClauseText(u) + ") OR (" + groupRole + ")"
  }

  /** The access text in parentheses, extended by the caller's filter when it is truthy. */
  function FinalFilterText(u: User, filter: Option<string>): string {
    var exp := "(" + AccessFilterText(u) + ")";
    if Truthy(filter) then exp + " AND (" + filter.value + ")" else exp
  }

  /** The filter `query` would send for a user id; `None` where the source would crash on an
      unknown user. */
  function QueryFilterText(userId: string, filter: Option<string>): (r: Option<string>)
    ensures r.Some? <==> Directory.Authenticate(userId).Some?
    ensures r.Some? ==> r.value == Show(FinalFilter(Directory.Authenticate(userId).value, filter))
  {
    match Directory.Authenticate(userId)
    case None => None
    case Some(u) =>
      FinalFilterPrintsAsSource(u, filter);
      Some(FinalFilterText(u, filter))
  }

  // ---------------------------------------------------------------------------
  // Printing the expression tree reproduces the source's strings
  // ---------------------------------------------------------------------------

  lemma JoinPair(a: string, b: string, sep: string)
    ensures Join([a, b], sep) == a + sep + b
  {
    assert [a, b][1..] == [b];
  }

  lemma ShowAndPair(a: Expr, b: Expr)
    ensures Show(And([a, b])) == "(" + Show(a) + ") AND (" + Show(b) + ")"
  {
    var ops := Operands([a, b]);
    assert ops == ["(" + Show(a) + ")", "(" + Show(b) + ")"];
    JoinPair(ops[0], ops[1], " AND ");
  }

  lemma ShowOrPair(a: Expr, b: Expr)
    ensures Show(Or([a, b])) == "(" + Show(a) + ") OR (" + Show(b) + ")"
  {
    var ops := Operands([a, b]);
    assert ops == ["(" + Show(a) + ")", "(" + Show(b) + ")"];
    JoinPair(ops[0], ops[1], " OR ");
  }

  lemma ShowAndOne(a: Expr)
    ensures Show(And([a])) == "(" + Show(a) + ")"
  {
    assert Operands([a]) == ["(" + Show(a) + ")"];
  }

  /** The membership disjunction prints as the checks joined with ` OR `. */
  lemma ShowMembers(f: Field, vs: seq<string>)
    ensures Show(Or(Members(f, vs))) == Join(MembershipChecks(vs, FieldName(f)), " OR ")
  {
    var ms := Members(f, vs);
    var checks := MembershipChecks(vs, FieldName(f));
    forall i | 0 <= i < |vs|
      ensures Operands(ms)[i] == checks[i]
    {
      calc {
        Operands(ms)[i];
        "(" + Show(Contains(f, vs[i])) + ")";
        "(" + ("'" + vs[i] + "' IN " + FieldName(f)) + ")";
        { assert "(" + "'" == "('"; }
        "('" + vs[i] + "' IN " + FieldName(f) + ")";
      }
    }
    assert Operands(ms) == checks;
  }

  lemma OwnerClausePrintsAsSource(u: User)
    ensures Show(OwnerClause(u)) == OwnerClauseText(u)
  {
    var id := UserIdText(u);
    assert "'" + GlobalOwner + "'" == "'global'";
    assert Quoted([GlobalOwner, id]) == ["'global'", "'" + id + "'"];
    JoinPair("'global'", "'" + id + "'", ", ");
  }

  lemma GroupClausePrintsAsSource(u: User)
    ensures Show(GroupClause(u)) == GroupClauseText(u)
  {
    if |UserGroups(u)| > 0 {
      GroupedClausePrints(u);
    } else {
      assert GroupClause(u) == IsNotNull(Groups);
      NullTestsPrint();
    }
  }

  lemma GroupedClausePrints(u: User)
    requires |UserGroups(u)| > 0
    ensures Show(GroupClause(u)) == GroupClauseText(u)
  {
    var gs := UserGroups(u);
    assert GroupClause(u) == And([IsNotNull(Groups), Or(Members(Groups, gs))]);
    NullTestsPrint();
    ShowMembers(Groups, gs);
    ShowAndPair(IsNotNull(Groups), Or(Members(Groups, gs)));
  }

  /** The two presence tests print as the source's base clauses (a solver helper for the
      literal concatenations). */
  lemma NullTestsPrint()
    ensures Show(IsNotNull(Groups)) == "doc.groups is not null"
    ensures Show(IsNull(Roles)) == "doc.roles is null"
  {
    assert "doc.groups" + " is not null" == "doc.groups is not null";
    assert "doc.roles" + " is null" == "doc.roles is null";
  }

  lemma RoleClausePrintsAsSource(u: User)
    ensures Show(RoleClause(u)) == RoleClauseText(u)
  {
    var rs := UserRoles(u);
    NullTestsPrint();
    if |rs| > 0 {
      assert RoleClause(u) == Or([IsNull(Roles), Or(Members(Roles, rs))]);
      ShowMembers(Roles, rs);
      ShowOrPair(IsNull(Roles), Or(Members(Roles, rs)));
    }
  }

  /** `build_access_control_filter` returns the printed access filter. */
  lemma AccessFilterPrintsAsSource(u: User)
    ensures Show(AccessFilter(u)) == AccessFilterText(u)
  {
    OwnerClausePrintsAsSource(u);
    GroupClausePrintsAsSource(u);
    RoleClausePrintsAsSource(u);
    ShowAndPair(GroupClause(u), RoleClause(u));
    ShowOrPair(OwnerClause(u), GroupRoleClause(u));
  }

  /** `query` sends the printed final filter. */
  lemma FinalFilterPrintsAsSource(u: User, filter: Option<string>)
    ensures Show(FinalFilter(u, filter)) == FinalFilterText(u, filter)
  {
    assert FinalFilter(u, filter) == Compose(AccessFilter(u), filter);
    AccessFilterPrintsAsSource(u);
    ComposePrintsAs(AccessFilter(u), AccessFilterText(u), filter);
  }

  /** Composition printed from an access filter whose text is known. */
  lemma ComposePrintsAs(access: Expr, text: string, filter: Option<string>)
    requires Show(access) == text
    ensures Show(Compose(access, filter)) ==
      var exp := "(" + text + ")";
      if Truthy(filter) then exp + " AND (" + filter.value + ")" else exp
  {
    ComposePrints(access, filter);
    if Truthy(filter) {
      ClosingAnd();
    }
  }

  /** A solver helper: splits the literal that joins the access filter to the content filter. */
  lemma ClosingAnd()
    ensures ")" + " AND (" == ") AND ("
  {
  }

  /** The composed filter prints as the access filter in parentheses, followed by ` AND (` +
      the caller's filter, verbatim, + `)` exactly when that filter is truthy. */
  lemma ComposePrints(access: Expr, filter: Option<string>)
    ensures Truthy(filter) ==>
      Show(Compose(access, filter)) == "(" + Show(access) + ") AND (" + filter.value + ")"
    ensures !Truthy(filter) ==> Show(Compose(access, filter)) == "(" + Show(access) + ")"
  {
    if Truthy(filter) {
      assert Compose(access, filter) == And([access, Content(filter.value)]);
      ShowAndPair(access, Content(filter.value));
    } else {
      assert Compose(access, filter) == And([access]);
      ShowAndOne(access);
    }
  }
}
