/** The documents the example corpus indexes and the outcomes the query script expects. */
module Scenarios {
  import opened Wrappers
  import opened Records
  import opened Predicates
  import opened AccessControl
  import opened Directory
  import opened SourceText

  /** The metadata of the four indexed files. */
  const Doc1: Doc := Doc("justin", Some(["history"]), Some(["analyst"]), Some("lectures"))
  const Doc2: Doc := Doc("jun", Some(["history", "religion"]), None, None)
  const Doc3: Doc := Doc("stephanie", Some(["physics"]), Some(["pii", "dean"]), None)
  const Doc4: Doc := Doc("global", None, None, Some("orientation"))

  const ProjectPrefix: string := "doc.project='"

  /** The project name in a content filter of the form `doc.project='<name>'`. */
  function ProjectOf(text: string): (r: Option<string>)
    ensures r.Some? ==> text == ProjectPrefix + r.value + "'"
  {
    if |text| > |ProjectPrefix| && text[..|ProjectPrefix|] == ProjectPrefix && text[|text| - 1] == '\''
    then
      var name := text[|ProjectPrefix|..|text| - 1];
      assert text == text[..|ProjectPrefix|] + name + [text[|text| - 1]];
      Some(name)
    else None
  }

  /** The backend's reading of the one content-filter form the script uses; other text is
      taken to match nothing. */
  predicate ProjectFilter(text: string, d: Doc) {
    match ProjectOf(text)
    case Some(p) => Eval(Eq(Project, p), d, (t, d') => false)
    case None => false
  }

  /** Reading back a printed project test gives its project name. */
  lemma ProjectOfPrinted(p: string)
    ensures ProjectOf(ProjectPrefix + p + "'") == Some(p)
  {
    var text := ProjectPrefix + p + "'";
    assert text[..|ProjectPrefix|] == ProjectPrefix;
    assert text[|ProjectPrefix|..|text| - 1] == p;
  }

  /** Printing a project test and reading it back gives the same test. */
  lemma ProjectFilterRoundTrip(p: string, d: Doc, content: (string, Doc) -> bool)
    ensures ProjectOf(Show(Eq(Project, p))) == Some(p)
    ensures ProjectFilter(Show(Eq(Project, p)), d) <==> Eval(Eq(Project, p), d, content)
  {
    assert Show(Eq(Project, p)) == ProjectPrefix + p + "'";
    ProjectOfPrinted(p);
  }

  /** The user `id` is in the directory and the final filter admits `d`. */
  predicate Sees(id: string, filter: Option<string>, d: Doc) {
    match Authenticate(id)
    case Some(u) => Eval(FinalFilter(u, filter), d, ProjectFilter)
    case None => false
  }

  lemma JunSeesDoc2AsOwner()
    ensures Sees("jun", None, Doc2)
    ensures OwnerAdmits(Authenticate("jun").value, Doc2)
  {
  }

  lemma JustinSeesDoc2ThroughReligion()
    ensures Sees("justin", None, Doc2)
    ensures !OwnerAdmits(Authenticate("justin").value, Doc2)
    ensures "religion" in UserGroups(Authenticate("justin").value) && "religion" in Doc2.groups.value
  {
    var u := Authenticate("justin").value;
    assert u == Users["justin"];
    assert "religion" in UserGroups(u) && "religion" in Doc2.groups.value;
  }

  lemma ElizaDoesNotSeeDoc2()
    ensures !Sees("eliza", None, Doc2)
  {
    assert !Intersects(["physics"], ["history", "religion"]);
  }

  lemma AshishDoesNotSeeDoc3()
    ensures !Sees("ashish", None, Doc3)
    ensures GroupAdmits(Authenticate("ashish").value, Doc3)
  {
    var u := Authenticate("ashish").value;
    assert u == Users["ashish"];
    assert "physics" in UserGroups(u) && "physics" in Doc3.groups.value;
    assert !Intersects(["student"], ["pii", "dean"]);
  }

  lemma ElizaSeesDoc3()
    ensures Sees("eliza", None, Doc3)
  {
    var u := Authenticate("eliza").value;
    assert u == Users["eliza"];
    assert "physics" in UserGroups(u) && "physics" in Doc3.groups.value;
    assert "dean" in UserRoles(u) && "dean" in Doc3.roles.value;
  }

  lemma MarySeesDoc4AsPublic()
    ensures Sees("mary", None, Doc4)
  {
  }

  lemma JunSeesDoc1InLectures()
    ensures Sees("jun", Some("doc.project='lectures'"), Doc1)
  {
    JunSeesDoc1();
    ScriptFilters();
    ProjectOfPrinted("lectures");
  }

  lemma JunDoesNotSeeDoc1InLabs()
    ensures Visible(Authenticate("jun").value, Doc1)
    ensures !Sees("jun", Some("doc.project='labs'"), Doc1)
  {
    JunSeesDoc1();
    ScriptFilters();
    ProjectOfPrinted("labs");
  }

  /** The script's two content filters are printed project tests. A solver helper: it keeps
      the literal-string concatenation out of the scenario proofs. */
  lemma ScriptFilters()
    ensures "doc.project='lectures'" == ProjectPrefix + "lectures" + "'"
    ensures "doc.project='labs'" == ProjectPrefix + "labs" + "'"
  {
  }

  /** Without a content filter jun sees the golden-bough document through history and analyst. */
  lemma JunSeesDoc1()
    ensures Visible(Authenticate("jun").value, Doc1)
  {
    var u := Authenticate("jun").value;
    assert u == Users["jun"];
    assert "history" in UserGroups(u) && "history" in Doc1.groups.value;
    assert "analyst" in UserRoles(u) && "analyst" in Doc1.roles.value;
  }

  /** The script's queries all name directory users; any other id gets no filter at all. */
  lemma UnknownUserHasNoFilter(id: string, filter: Option<string>)
    requires id !in Users
    ensures QueryFilterText(id, filter) == None
  {
    assert Authenticate(id) == None;
  }
}
