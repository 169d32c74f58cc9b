/** The backend's predicate language as an expression tree: its meaning over one document's
    metadata (`Eval`) and its textual form (`Show`). */
module Predicates {
  import opened Wrappers
  import opened Records
  import opened Text

  /** The document attributes a filter can name. */
  datatype Field = Owner | Groups | Roles | Project

  datatype Expr =
    | Eq(field: Field, value: string)              // doc.f='v'
    | In(field: Field, values: seq<string>)        // doc.f IN ('a', 'b')
    | Contains(field: Field, value: string)        // 'v' IN doc.f
    | IsNull(field: Field)                         // doc.f is null
    | IsNotNull(field: Field)                      // doc.f is not null
    | And(args: seq<Expr>)                         // (a) AND (b) AND ...
    | Or(args: seq<Expr>)                          // (a) OR (b) OR ...
    | Content(text: string)                        // a caller's filter, copied verbatim

  /** The value of a text attribute; list attributes have none. */
  function TextValue(d: Doc, f: Field): Option<string> {
    match f
    case Owner => Some(d.owner)
    case Project => d.project
    case _ => None
  }

  /** The value of a list attribute; text attributes have none. */
  function ListValue(d: Doc, f: Field): Option<seq<string>> {
    match f
    case Groups => d.groups
    case Roles => d.roles
    case _ => None
  }

  predicate IsAbsent(d: Doc, f: Field) {
    TextValue(d, f).None? && ListValue(d, f).None?
  }

  /** Meaning of a filter for one document. Comparing with, or looking inside, a null attribute
      is false. `content` gives meaning to the caller's opaque filter text. An empty `And` is
      true and an empty `Or` is false. */
  function Eval(e: Expr, d: Doc, content: (string, Doc) -> bool): bool
    decreases e
  {
    match e
    case Eq(f, v) => TextValue(d, f) == Some(v)
    case In(f, vs) => TextValue(d, f).Some? && TextValue(d, f).value in vs
    case Contains(f, v) => ListValue(d, f).Some? && v in ListValue(d, f).value
    case IsNull(f) => IsAbsent(d, f)
    case IsNotNull(f) => !IsAbsent(d, f)
    case And(es) => forall i :: 0 <= i < |es| ==> Eval(es[i], d, content)
    case Or(es) => exists i :: 0 <= i < |es| && Eval(es[i], d, content)
    case Content(t) => content(t, d)
  }

  function FieldName(f: Field): string {
    match f
    case Owner => "doc.owner"
    case Groups => "doc.groups"
    case Roles => "doc.roles"
    case Project => "doc.project"
  }

  /** Each name wrapped in single quotes; no escaping is done, as in the source. */
  function Quoted(vs: seq<string>): seq<string> {
    seq(|vs|, i requires 0 <= i < |vs| => "'" + vs[i] + "'")
  }

  /** The operands of an n-ary connective, each in parentheses. */
  function Operands(es: seq<Expr>): seq<string>
    decreases es, 0
  {
    seq(|es|, i requires 0 <= i < |es| => "(" + Show(es[i]) + ")")
  }

  /** The textual form the retrieval backend receives. */
  function Show(e: Expr): string
    decreases e, 1
  {
    match e
    case Eq(f, v) => FieldName(f) + "='" + v + "'"
    case In(f, vs) => FieldName(f) + " IN (" + Join(Quoted(vs), ", ") + ")"
    case Contains(f, v) => "'" + v + "' IN " + FieldName(f)
    case IsNull(f) => FieldName(f) + " is null"
    case IsNotNull(f) => FieldName(f) + " is not null"
    case And(es) => Join(Operands(es), " AND ")
    case Or(es) => Join(Operands(es), " OR ")
    case Content(t) => t
  }

  /** A two-operand conjunction means what `&&` means, for every document. */
  lemma EvalAndPair(a: Expr, b: Expr)
    ensures forall d: Doc, content :: Eval(And([a, b]), d, content) <==> Eval(a, d, content) && Eval(b, d, content)
  {
    var es := [a, b];
    assert es[0] == a && es[1] == b;
  }

  /** A two-operand disjunction means what `||` means, for every document. */
  lemma EvalOrPair(a: Expr, b: Expr)
    ensures forall d: Doc, content :: Eval(Or([a, b]), d, content) <==> Eval(a, d, content) || Eval(b, d, content)
  {
    var es := [a, b];
    assert es[0] == a && es[1] == b;
  }

  /** A one-operand conjunction only adds parentheses. */
  lemma EvalAndOne(a: Expr)
    ensures forall d: Doc, content :: Eval(And([a]), d, content) <==> Eval(a, d, content)
  {
    var es := [a];
    assert es[0] == a;
  }
}
