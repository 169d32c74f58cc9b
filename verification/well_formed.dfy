/** The printed filter is well formed: its parentheses balance whenever the names it quotes
    contain no parentheses and the caller's verbatim content filters are balanced. No quoting
    or escaping is done and the caller's filter is copied unchecked, so both premises are
    needed. */
module WellFormed {
  import opened Wrappers
  import opened Records
  import opened Text
  import opened Balance
  import opened Predicates
  import opened AccessControl
  import opened SourceText

  /** Every quoted name is free of parentheses and every verbatim filter is balanced. */
  predicate Printable(e: Expr)
    decreases e
  {
    match e
    case Eq(_, v) => ParenFree(v)
    case In(_, vs) => forall i :: 0 <= i < |vs| ==> ParenFree(vs[i])
    case Contains(_, v) => ParenFree(v)
    case IsNull(_) => true
    case IsNotNull(_) => true
    case And(es) => forall i :: 0 <= i < |es| ==> Printable(es[i])
    case Or(es) => forall i :: 0 <= i < |es| ==> Printable(es[i])
    case Content(t) => Balanced(t)
  }

  lemma ParenFreeIsBalanced(s: string)
    requires ParenFree(s)
    ensures Balanced(s)
  {
    ParenFreeBalanced(s, 0);
  }

  lemma FieldNameParenFree(f: Field)
    ensures ParenFree(FieldName(f))
  {
  }

  lemma OperandsBalanced(es: seq<Expr>)
    requires forall i :: 0 <= i < |es| ==> Printable(es[i])
    ensures forall i :: 0 <= i < |es| ==> Balanced(Operands(es)[i])
    decreases es, 0
  {
    forall i | 0 <= i < |es|
      ensures Balanced(Operands(es)[i])
    {
      ShowBalanced(es[i]);
      BalancedWrap(Show(es[i]));
    }
  }

  /** Every printable expression prints with balanced parentheses. */
  lemma {:induction false} ShowBalanced(e: Expr)
    requires Printable(e)
    ensures Balanced(Show(e))
    decreases e, 1
  {
    match e
    case And(es) =>
      OperandsBalanced(es);
      ParenFreeIsBalanced(" AND ");
      JoinBalanced(Operands(es), " AND ");
    case Or(es) =>
      OperandsBalanced(es);
      ParenFreeIsBalanced(" OR ");
      JoinBalanced(Operands(es), " OR ");
    case Content(t) =>
    case In(f, vs) =>
      ListTestBalanced(f, vs);
    case _ =>
      AtomBalanced(e);
  }

  /** A text comparison, membership or presence test quoting parenthesis-free names. */
  lemma AtomBalanced(e: Expr)
    requires e.Eq? || e.Contains? || e.IsNull? || e.IsNotNull?
    requires Printable(e)
    ensures Balanced(Show(e))
  {
    FieldNameParenFree(e.field);
    match e {
      case Eq(f, v) =>
        assert ParenFree(FieldName(f) + "='" + v + "'");
      case Contains(f, v) =>
        assert ParenFree("'" + v + "' IN " + FieldName(f));
      case IsNull(f) =>
        assert ParenFree(FieldName(f) + " is null");
      case IsNotNull(f) =>
        assert ParenFree(FieldName(f) + " is not null");
    }
    ParenFreeIsBalanced(Show(e));
  }

  /** `doc.f IN ('a', 'b')`: one balanced pair around parenthesis-free names. */
  lemma ListTestBalanced(f: Field, vs: seq<string>)
    requires Printable(In(f, vs))
    ensures Balanced(Show(In(f, vs)))
  {
    var quoted := Quoted(vs);
    forall i | 0 <= i < |quoted|
      ensures Balanced(quoted[i])
    {
      assert ParenFree("'" + vs[i] + "'");
      ParenFreeIsBalanced(quoted[i]);
    }
    ParenFreeIsBalanced(", ");
    JoinBalanced(quoted, ", ");
    var inner := Join(quoted, ", ");
    BalancedWrap(inner);
    FieldNameParenFree(f);
    assert ParenFree(FieldName(f) + " IN ");
    ParenFreeIsBalanced(FieldName(f) + " IN ");
    BalancedConcat(FieldName(f) + " IN ", "(" + inner + ")");
    assert Show(In(f, vs)) == (FieldName(f) + " IN ") + ("(" + inner + ")");
  }

  /** The user's id, groups and roles contain no parentheses. */
  predicate PlainNames(u: User) {
    && ParenFree(UserIdText(u))
    && (forall g :: g in UserGroups(u) ==> ParenFree(g))
    && (forall r :: r in UserRoles(u) ==> ParenFree(r))
  }

  lemma MembersPrintable(f: Field, vs: seq<string>)
    requires forall v :: v in vs ==> ParenFree(v)
    ensures Printable(Or(Members(f, vs)))
  {
    var ms := Members(f, vs);
    forall i | 0 <= i < |ms|
      ensures Printable(ms[i])
    {
      assert vs[i] in vs;
    }
  }

  lemma AccessFilterPrintable(u: User)
    requires PlainNames(u)
    ensures Printable(AccessFilter(u))
  {
    assert ParenFree(GlobalOwner);
    var gs, rs := UserGroups(u), UserRoles(u);
    if |gs| > 0 {
      MembersPrintable(Groups, gs);
      assert GroupClause(u) == And([IsNotNull(Groups), Or(Members(Groups, gs))]);
    }
    if |rs| > 0 {
      MembersPrintable(Roles, rs);
      assert RoleClause(u) == Or([IsNull(Roles), Or(Members(Roles, rs))]);
    }
    var clauses := [GroupClause(u), RoleClause(u)];
    assert Printable(clauses[0]) && Printable(clauses[1]);
    assert Printable(GroupRoleClause(u));
    var pathways := [OwnerClause(u), GroupRoleClause(u)];
    assert Printable(pathways[0]) && Printable(pathways[1]);
  }

  /** The text `query` sends has balanced parentheses when the user's names contain none and
      the caller's filter is itself balanced. */
  lemma FinalFilterBalanced(u: User, filter: Option<string>)
    requires PlainNames(u)
    requires Truthy(filter) ==> Balanced(filter.value)
    ensures Balanced(FinalFilterText(u, filter))
  {
    AccessFilterPrintable(u);
    assert Printable(FinalFilter(u, filter));
    ShowBalanced(FinalFilter(u, filter));
    FinalFilterPrintsAsSource(u, filter);
  }

  /** A caller filter that closes the parenthesis `query` opens around it is not balanced, so
      `FinalFilterBalanced` and the conjunction law on the tree say nothing about its text. */
  lemma SplicedFilterUnbalanced()
    ensures !Balanced("x) OR (y")
    ensures !Printable(Content("x) OR (y"))
  {
    var s := "x) OR (y";
    assert s[1..] == ") OR (y";
    assert s[1..][1..] == " OR (y";
    assert !NeverBelow(s[1..][1..], -1);
  }
}
