# Access-control filter compiler, modelled in Dafny

This project models the access-control filter compiler of the `access_control` example. The
compiler turns a user's attributes into the metadata filter the retrieval backend applies to
every document. The attributes are a user id, groups and roles, looked up in a static user
directory. The filter has three pathways:

- ownership: `doc.owner IN ('global', '<user id>')`;
- a group test: `doc.groups is not null`, plus one `'<g>' IN doc.groups` test per user group
  when the user has any groups;
- a role test: `doc.roles is null`, or one `'<r>' IN doc.roles` test per user role.

They combine as `(owner) OR ((group) AND (role))`. `query` puts the result in parentheses and
appends ` AND (<content filter>)` when the caller passes a non-empty content filter.

The filter is modelled twice:

- as an expression tree (`Predicates.Expr`) with an evaluator over a document's metadata
  (`Predicates.Eval`), plus a printer (`Predicates.Show`);
- as the plain string concatenation the script performs (`SourceText`).

Printing the compiled tree is proved to yield exactly the script's string for every user and
every content filter. The evaluator is proved to agree with a direct statement of the three
pathways (`AccessControl.Visible`).

Files and modules:

| file | module | contents |
|---|---|---|
| wrappers.dfy | Wrappers | `Option` |
| text.dfy | Text | Python's `str.join` |
| records.dfy | Records | `User`, `Doc`, the defaults for missing `groups`/`roles` keys |
| directory.dfy | Directory | `USER_DIRECTORY` and `authenticate_user` |
| predicates.dfy | Predicates | filter expression tree, `Eval`, `Show` |
| access_control.dfy | AccessControl | the clause builders, the access filter, the final filter, their meaning |
| source_text.dfy | SourceText | the as-written filter strings; proof that `Show` reproduces them |
| monotonicity.dfy | Monotonicity | more roles or groups keep documents visible, and the one case where they do not |
| strict_groups.dfy | StrictGroups | the corrected group clause and its monotonicity |
| balance.dfy | Balance | parenthesis balance of text |
| well_formed.dfy | WellFormed | the printed filter balances its parentheses |
| scenarios.dfy | Scenarios | the four indexed documents (access_control/index.py:38-62) and the script's expected outcomes |

The evaluator is two-valued. A comparison with a null attribute is false, and so is a
membership test in one. The filters the compiler builds guard every membership test with a
null test: the group tests are conjoined with `doc.groups is not null`, and the role tests are
disjoined with `doc.roles is null`. So this reading agrees with SQL-style three-valued logic
on them. The caller's content filter is an opaque leaf. Its meaning is a parameter of `Eval`.
The scenarios give it meaning with a reader for `doc.project='<name>'`.

Three points where the model follows the code rather than a looser reading of it:

- An unknown user id is not an error of its own. `authenticate_user` returns `None`, and the
  filter is then never built. `Directory.Authenticate` returns `None`, and
  `SourceText.QueryFilterText` produces no filter.
- The schema description at access_control/setup.py:31-32 calls a document whose `groups`
  list is empty private. The filter tests only `doc.groups is not null`, so the model treats
  an empty list as present. No user with groups shares a name with it, but a user without
  groups passes the group test.
- The schema description at access_control/setup.py:38-40 treats an unset and an empty
  `roles` list alike. The filter tests only `doc.roles is null`, so an empty roles list is
  present but names no role. Such a document is visible only to its owner, or to everyone if
  it is public (`AccessControl.EmptyRoleList`).

`Predicates.Eval` (the evaluator), `Predicates.Show` (the printer) and the `SourceText.*Text`
functions (the strings as query.py:35-63 concatenates them) are definitions with no contract of
their own. What is proved about them appears in the `AccessControl` rows, in the
`*PrintsAsSource` rows and in `WellFormed.ShowBalanced`.

## Model

| member | source | states |
|---|---|---|
| Directory.Lookup | access_control/query.py:28-30 | a lookup yields the entry filed under the id exactly when the id is a key; in a directory filed by user id, that entry carries the id looked up |
| Directory.Authenticate | access_control/query.py:18-30 | exactly the six listed users authenticate, each to their own directory record, which carries their id and at least one group and one role |
| AccessControl.AnyMember | access_control/query.py:40-42 | the disjunction of per-name membership tests holds exactly when the document's list is present and shares a name with the user's list |
| AccessControl.GroupTestsMeaning | access_control/query.py:38-42 | the presence test conjoined with the per-group checks holds exactly on documents with groups sharing a name with the list |
| AccessControl.RoleTestsMeaning | access_control/query.py:45-49 | the null test disjoined with the per-role checks holds exactly on documents without roles or sharing a role with the list |
| AccessControl.OwnerClause | access_control/query.py:35 | the owner clause admits exactly the documents owned by `global` or by the user |
| AccessControl.GroupClause | access_control/query.py:37-42 | the group clause admits exactly the documents with groups that either share a group with the user or, for a user without groups, have any groups at all |
| AccessControl.RoleClause | access_control/query.py:44-49 | the role clause admits exactly the documents without roles or sharing a role with the user |
| AccessControl.GroupRoleClause | access_control/query.py:52 | the combined clause admits exactly the documents passing both the group and the role clause |
| AccessControl.AccessFilter | access_control/query.py:33-54 | the access filter admits exactly the documents visible through ownership, or through the group and role tests together |
| AccessControl.Compose | access_control/query.py:61-63 | the final filter holds exactly when the access filter holds and, for a non-empty content filter, the content filter holds too |
| AccessControl.FinalFilter | access_control/query.py:58-63 | the filter `query` sends admits exactly the visible documents that also satisfy the truthy content filter |
| AccessControl.OwnershipPathway | access_control/query.py:35-54 | every user sees public documents and their own, whatever the documents' groups and roles |
| AccessControl.PrivateDocument | access_control/query.py:38-54 | a document without groups is visible only to its owner, or to everyone if the owner is `global` |
| AccessControl.GroupedUser | access_control/query.py:39-42 | for a user with groups, the group clause holds exactly on documents sharing a group; with no shared group the group-role pathway is closed whatever the roles |
| AccessControl.GrouplessUser | access_control/query.py:38-41 | for a user without groups, the group clause is the bare `doc.groups is not null` and admits every document that has groups |
| AccessControl.RoleClauseMeaning | access_control/query.py:45-49 | the role clause passes documents without roles or sharing a role; a user without roles passes only documents without roles |
| AccessControl.EmptyRoleList | access_control/query.py:45-54 | a document with a present but empty roles list is visible exactly through the ownership pathway |
| AccessControl.ConjunctionLaw | access_control/query.py:61-63 | the final filter is the access filter conjoined with a non-empty content filter; `None` and `""` both give just the access filter, and the same expression |
| SourceText.QueryFilterText | access_control/query.py:58-63 | the script produces a filter exactly for directory users, and that filter is the printed compiled expression |
| SourceText.ShowMembers | access_control/query.py:40-42 | the membership disjunction prints as the `" OR "`-joined list of `('<name>' IN doc.<list>)` checks |
| SourceText.OwnerClausePrintsAsSource | access_control/query.py:35 | the owner clause prints as the script's owner string |
| SourceText.GroupClausePrintsAsSource | access_control/query.py:38-42 | the group clause prints as the script's group string, with and without user groups |
| SourceText.RoleClausePrintsAsSource | access_control/query.py:45-49 | the role clause prints as the script's role string, with and without user roles |
| SourceText.AccessFilterPrintsAsSource | access_control/query.py:33-54 | the compiled access filter prints exactly as `build_access_control_filter`'s string |
| SourceText.FinalFilterPrintsAsSource | access_control/query.py:61-63 | for every user and content filter, the compiled final filter prints exactly as the string `query` builds |
| SourceText.ComposePrints | access_control/query.py:61-63 | the composed filter prints as the access filter in parentheses, then ` AND (` + the caller's filter copied verbatim + `)` exactly when that filter is truthy; `None` and `""` add nothing |
| Monotonicity.RolesMonotone | access_control/query.py:45-49 | a user with the same groups and more roles sees every document the user saw |
| Monotonicity.AddRoleKeepsVisible | access_control/query.py:46-49 | appending a role never hides a visible document |
| Monotonicity.PrivilegesMonotone | access_control/query.py:38-49 | for a user who already has a group, more groups and roles never hide a visible document |
| Monotonicity.AddGroupKeepsVisible | access_control/query.py:39-42 | appending a group to a user who has one never hides a visible document |
| Monotonicity.FirstGroupCanHide | access_control/query.py:38-42 | a groupless user sees a physics document through the bare group test and loses it on gaining an unrelated first group |
| StrictGroups.StrictGroupClause | access_control/query.py:38-42 | the corrected group clause admits exactly the documents sharing a group with the user |
| StrictGroups.StrictAccessFilter | access_control/query.py:33-54 | the corrected access filter admits ownership, or a shared group together with the role test |
| StrictGroups.StrictFinalFilter | access_control/query.py:61-63 | the corrected final filter is the corrected access filter conjoined with the truthy content filter |
| StrictGroups.StrictAgreesWhenGrouped | access_control/query.py:41-42 | for users with a group, the corrected filters are the compiled filters themselves |
| StrictGroups.StrictNeverWider | access_control/query.py:38-42 | the corrected filter never admits a document the compiled filter rejects |
| StrictGroups.StrictMonotone | access_control/query.py:38-49 | with the corrected clause, gaining groups or roles never hides a visible document |
| StrictGroups.StrictFirstGroup | access_control/query.py:38-42 | with the corrected clause, the groupless user does not see the physics document and gains it with the physics group |
| WellFormed.ShowBalanced | access_control/query.py:35-54 | every expression whose quoted names have no parentheses and whose verbatim content filters are balanced prints with balanced parentheses |
| WellFormed.FinalFilterBalanced | access_control/query.py:61-63 | the text `query` sends balances its parentheses when the user's names contain none and the caller's filter balances |
| WellFormed.SplicedFilterUnbalanced | access_control/query.py:62-63 | the caller's filter `x) OR (y`, which the source would splice in unchecked, is not balanced, so the balance premise of `FinalFilterBalanced` is not met by every filter |
| Scenarios.ProjectFilterRoundTrip | access_control/query.py:130 | scenario support, not a property of the compiler: the reader that gives the script's content filter its meaning reads a printed `doc.project='<name>'` test back to the same name and the same meaning |
| Scenarios.JunSeesDoc2AsOwner | access_control/query.py:97-100 | jun sees the hero's-journey document as its owner |
| Scenarios.JustinSeesDoc2ThroughReligion | access_control/query.py:102-105 | justin, not the owner, sees it through the shared `religion` group and the document's null roles |
| Scenarios.ElizaDoesNotSeeDoc2 | access_control/query.py:107-110 | eliza, in physics only, does not see it |
| Scenarios.AshishDoesNotSeeDoc3 | access_control/query.py:112-115 | ashish passes the physics group test but not the role test and does not see the physicists document |
| Scenarios.ElizaSeesDoc3 | access_control/query.py:117-120 | eliza sees it through physics and the `dean` role |
| Scenarios.MarySeesDoc4AsPublic | access_control/query.py:122-125 | mary sees the globally owned rules document |
| Scenarios.JunSeesDoc1 | access_control/query.py:127-130 | jun sees the golden-bough document through the `history` group and the `analyst` role |
| Scenarios.JunSeesDoc1InLectures | access_control/query.py:127-130 | jun sees it with the content filter `doc.project='lectures'` |
| Scenarios.JunDoesNotSeeDoc1InLabs | access_control/query.py:132-135 | jun does not see it with `doc.project='labs'`, although the access filter alone admits it |
| Scenarios.UnknownUserHasNoFilter | access_control/query.py:28-30 | an id outside the directory yields no filter, whatever the caller's filter |

## Findings

| source | as written | input that shows it | evidently intended | confidence | as-written member | corrected member |
|---|---|---|---|---|---|---|
| access_control/query.py:38-42 | a user without groups gets the bare test `doc.groups is not null`, which admits every document that has any groups | a user with no `groups` and no `roles` keys sees a document owned by `stephanie` with groups `["physics"]` and no roles, and stops seeing it once given the group `history` | a document's groups list the groups permitted to see it (the schema description in access_control/setup.py:31-32 and the comment at access_control/index.py:45), so a user must share one; the empty disjunction is false and visibility grows with privileges | medium, not executed | Monotonicity.FirstGroupCanHide | StrictGroups.StrictMonotone |

The compiled filter (`AccessControl.AccessFilter`) keeps the as-written clause, since that is
the text the script sends. The corrected filter goes through the same composition
(`AccessControl.Compose`). `StrictGroups.StrictAgreesWhenGrouped` shows that the two differ
only for users without groups.

## Left out

- The HTTP request in `query` (access_control/query.py:65-94): the JSON payload, the network
  call, parsing the answer and printing. This is I/O.
- Reading the API key and corpus key from the environment (access_control/query.py:11-15).
  This is process state.
- access_control/setup.py, access_control/cleanup.py and `upload_file` in
  access_control/index.py. These are corpus creation, deletion and upload over HTTP. Only
  the documents' metadata is kept, as constants in `Scenarios`.
- The backend's own filter grammar and evaluation. `Predicates.Eval` models the intended
  meaning, not the remote service.
- Quoting and escaping. The source does none, and neither does `Predicates.Show`. The printer
  matches the source for every name. Balanced parentheses are proved only for names without
  parentheses and for a balanced caller filter. A name containing `'` ends its quoted literal
  early, and the backend's reading of the rest is not modelled.
- The caller's filter as text. access_control/query.py:62-63 copies it unchecked, while the
  tree holds it as one atomic `Content` leaf. `AccessControl.Compose` and
  `AccessControl.ConjunctionLaw` therefore describe the sent text only when the filter is
  self-contained. The filter `x) OR (y` is not balanced (`WellFormed.SplicedFilterUnbalanced`).
  Spliced in, the whole text still balances, but under the usual precedence it reads as
  `((access) AND (x)) OR (y)`, which bypasses the access filter.
- An error for unknown users. The source has none: the lookup returns `None`, and building
  the filter would then fail on `None`. The model returns `None` and builds nothing.
- A `groups` or `roles` key that is present with the value `None`. The source would fail
  iterating it, and `Records.User` cannot express it: its `None` means the key is missing.
- Determinism, and not changing the user record. They hold by construction, since every
  member is a pure function of immutable values, so there is no lemma for them.
- The exact literal filter texts for the script's users. They follow from
  `SourceText.FinalFilterPrintsAsSource` for every user and are not written out as constants.
- StrictGroups.StrictGroupClause: not printed for users without groups. Its empty
  disjunction prints as the empty text, which the backend would not accept. The corrected
  clause is stated only by its meaning.
