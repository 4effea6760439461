/** The website form: the slug generated from the site name, the edit-mode merge of a
    stored site over the defaults, the field and section updates, and the submit that
    either creates or updates the site. */
module AddWebsite {
  import opened Seqs
  import opened JsText
  import Endpoints

  // ------------------------------------------------------------------
  // Slug generation
  // ------------------------------------------------------------------

  /** A character of the class `[a-z0-9]`. */
  predicate IsSlugChar(c: char) {
    'a' <= c <= 'z' || '0' <= c <= '9'
  }

  predicate NotDash(c: char) {
    c != '-'
  }

  /** Drops the leading run of characters outside `[a-z0-9]`. */
  function SkipRun(s: string): (r: string)
    ensures |r| <= |s|
    ensures r == [] || IsSlugChar(r[0])
    decreases |s|
  {
    if s != [] && !IsSlugChar(s[0]) then SkipRun(s[1..]) else s
  }

  /** `.replace(/[^a-z0-9]+/g, "-")`: every maximal run of characters outside
      `[a-z0-9]` becomes a single `-`. */
  function CollapseRuns(s: string): string
    decreases |s|
  {
    if s == [] then []
    else if IsSlugChar(s[0]) then [s[0]] + CollapseRuns(s[1..])
    else "-" + CollapseRuns(SkipRun(s[1..]))
  }

  /** `.replace(/(^-|-$)/g, "")`: one `-` at the start and one at the end are removed. */
  function StripEdgeDash(s: string): string {
    var t := if s != [] && s[0] == '-' then s[1..] else s;
    if t != [] && t[|t| - 1] == '-' then t[..|t| - 1] else t
  }

  /** The slug generated from a site name in add mode. */
  function Slugify(name: string): string {
    StripEdgeDash(CollapseRuns(Lower(name)))
  }

  predicate NoDoubleDash(s: string) {
    forall i :: 0 <= i < |s| - 1 ==> !(s[i] == '-' && s[i + 1] == '-')
  }

  predicate InSlugAlphabet(s: string) {
    forall i :: 0 <= i < |s| ==> IsSlugChar(s[i]) || s[i] == '-'
  }

  /** Only `[a-z0-9-]`, no `--`, and no `-` at either end. */
  predicate WellFormedSlug(s: string) {
    InSlugAlphabet(s) && NoDoubleDash(s) && (s == [] || (s[0] != '-' && s[|s| - 1] != '-'))
  }

  /** Collapsing leaves only `[a-z0-9-]`, never two dashes in a row, and keeps a leading
      `[a-z0-9]` character in front. */
  lemma {:induction false} CollapseRunsShape(s: string)
    ensures InSlugAlphabet(CollapseRuns(s)) && NoDoubleDash(CollapseRuns(s))
    ensures s == [] || IsSlugChar(s[0]) ==> CollapseRuns(s) == [] || IsSlugChar(CollapseRuns(s)[0])
    decreases |s|
  {
    if s != [] {
      var r := CollapseRuns(s);
      if IsSlugChar(s[0]) {
        var rest := CollapseRuns(s[1..]);
        CollapseRunsShape(s[1..]);
        assert r == [s[0]] + rest;
        assert forall i :: 1 <= i < |r| ==> r[i] == rest[i - 1];
      } else {
        var t := SkipRun(s[1..]);
        var rest := CollapseRuns(t);
        CollapseRunsShape(t);
        assert r == "-" + rest;
        assert forall i :: 1 <= i < |r| ==> r[i] == rest[i - 1];
      }
    }
  }

  /** Every generated slug is well formed. */
  lemma SlugifyWellFormed(name: string)
    ensures WellFormedSlug(Slugify(name))
  {
    var c := CollapseRuns(Lower(name));
    CollapseRunsShape(Lower(name));
    var t := if c != [] && c[0] == '-' then c[1..] else c;
    assert InSlugAlphabet(t) && NoDoubleDash(t);
    assert t != [] ==> t[0] != '-';
    var u := if t != [] && t[|t| - 1] == '-' then t[..|t| - 1] else t;
    assert u == Slugify(name);
    assert InSlugAlphabet(u) && NoDoubleDash(u);
  }

  /** The slug uses only the characters `a-z`, `0-9` and `-`. */
  lemma SlugAlphabet(name: string)
    ensures forall i :: 0 <= i < |Slugify(name)| ==> IsSlugChar(Slugify(name)[i]) || Slugify(name)[i] == '-'
  {
    SlugifyWellFormed(name);
  }

  /** The slug neither starts nor ends with `-` and never contains `--`. */
  lemma SlugEdges(name: string)
    ensures Slugify(name) == [] || (Slugify(name)[0] != '-' && Slugify(name)[|Slugify(name)| - 1] != '-')
    ensures !Contains(Slugify(name), "--")
  {
    var slug := Slugify(name);
    SlugifyWellFormed(name);
    forall i | 0 <= i <= |slug| - 2
      ensures !OccursAt(slug, "--", i)
    {
      assert !(slug[i] == '-' && slug[i + 1] == '-');
    }
  }

  /** Skipping a run drops no `[a-z0-9]` character. */
  lemma {:induction false} SkipRunKeepsSlugChars(s: string)
    ensures Filter(IsSlugChar, SkipRun(s)) == Filter(IsSlugChar, s)
    decreases |s|
  {
    if s != [] && !IsSlugChar(s[0]) {
      SkipRunKeepsSlugChars(s[1..]);
    }
  }

  lemma {:induction false} CollapseRunsKeepsSlugChars(s: string)
    ensures Filter(NotDash, CollapseRuns(s)) == Filter(IsSlugChar, s)
    decreases |s|
  {
    if s != [] {
      if IsSlugChar(s[0]) {
        CollapseRunsKeepsSlugChars(s[1..]);
        assert ([s[0]] + CollapseRuns(s[1..]))[1..] == CollapseRuns(s[1..]);
      } else {
        var t := SkipRun(s[1..]);
        CollapseRunsKeepsSlugChars(t);
        SkipRunKeepsSlugChars(s[1..]);
        assert ("-" + CollapseRuns(t))[1..] == CollapseRuns(t);
      }
    }
  }

  lemma StripEdgeDashKeepsOthers(s: string)
    ensures Filter(NotDash, StripEdgeDash(s)) == Filter(NotDash, s)
  {
    var t := if s != [] && s[0] == '-' then s[1..] else s;
    if s != [] && s[0] == '-' {
      assert s == [s[0]] + t;
      FilterConcat(NotDash, [s[0]], t);
    }
    if t != [] && t[|t| - 1] == '-' {
      assert t == t[..|t| - 1] + [t[|t| - 1]];
      FilterConcat(NotDash, t[..|t| - 1], [t[|t| - 1]]);
    }
  }

  /** Removing the dashes from the slug leaves exactly the `[a-z0-9]` characters of the
      lower-cased name, in order. */
  lemma SlugKeepsNameCharacters(name: string)
    ensures Filter(NotDash, Slugify(name)) == Filter(IsSlugChar, Lower(name))
  {
    StripEdgeDashKeepsOthers(CollapseRuns(Lower(name)));
    CollapseRunsKeepsSlugChars(Lower(name));
  }

  /** A well-formed slug has no run longer than one dash, so collapsing changes nothing. */
  lemma {:induction false} CollapseRunsFixed(w: string)
    requires InSlugAlphabet(w) && NoDoubleDash(w)
    ensures CollapseRuns(w) == w
    decreases |w|
  {
    if w != [] {
      var tail := w[1..];
      assert InSlugAlphabet(tail) && NoDoubleDash(tail);
      CollapseRunsFixed(tail);
      if !IsSlugChar(w[0]) {
        assert tail == [] || IsSlugChar(tail[0]);
        assert SkipRun(tail) == tail;
      }
      assert w == [w[0]] + tail;
    }
  }

  /** A well-formed slug is its own slug. */
  lemma SlugIsFixedPoint(w: string)
    requires WellFormedSlug(w)
    ensures Slugify(w) == w
  {
    assert forall i :: 0 <= i < |w| ==> Lower(w)[i] == w[i];
    assert Lower(w) == w;
    CollapseRunsFixed(w);
  }

  /** Generating a slug from a slug changes nothing. */
  lemma SlugifyIdempotent(name: string)
    ensures Slugify(Slugify(name)) == Slugify(name)
  {
    SlugifyWellFormed(name);
    SlugIsFixedPoint(Slugify(name));
  }

  // ------------------------------------------------------------------
  // Form values
  // ------------------------------------------------------------------

  /** A JSON value of the form or of a stored site. Arrays are not modelled. */
  datatype Value = Text(s: string) | Flag(b: bool) | Number(n: int) | Null | Obj(fields: map<string, Value>)

  /** `v` in a condition: `""`, `false`, `0`, `null` and an absent member are false. */
  predicate Truthy(v: Option<Value>) {
    match v
    case None => false
    case Some(Text(s)) => s != ""
    case Some(Flag(b)) => b
    case Some(Number(n)) => n != 0
    case Some(Null) => false
    case Some(Obj(_)) => true
  }

  /** `${v}` and `String(v)`: the text a value turns into. */
  function TemplateText(v: Option<Value>): string {
    match v
    case None => "undefined"
    case Some(Text(s)) => s
    case Some(Flag(b)) => if b then "true" else "false"
    case Some(Number(n)) => IntToString(n)
    case Some(Null) => "null"
    case Some(Obj(_)) => "[object Object]"
  }

  /** `m[k]`, absent when the key is missing. */
  function Get(m: map<string, Value>, k: string): Option<Value> {
    if k in m then Some(m[k]) else None
  }

  /** `{...v}`: the members of an object; anything else spreads to nothing. */
  function Spread(v: Option<Value>): map<string, Value> {
    match v
    case Some(Obj(m)) => m
    case _ => map[]
  }

  /** `{...form[section]}`: the keys of one nested section of the form. */
  function SectionOf(form: map<string, Value>, section: string): map<string, Value> {
    Spread(Get(form, section))
  }

  const InitialSelectors: map<string, Value> :=
    map["itemLink" := Text(""), "contentWrapper" := Text(""), "categories" := Text(""),
        "waitForSelector" := Text("")]

  const InitialPagination: map<string, Value> :=
    map["type" := Text("url_replace"), "urlPattern" := Text(""), "startPage" := Number(1),
        "maxPages" := Number(1)]

  /** The nested sections and their default keys. */
  const Sections: map<string, map<string, Value>> :=
    map["selectors" := InitialSelectors, "pagination" := InitialPagination]

  /** The empty form of add mode. */
  const InitialForm: map<string, Value> :=
    map["name" := Text(""), "slug" := Text(""), "baseUrl" := Text(""), "isActive" := Flag(true),
        "engine" := Text("playwright"), "selectors" := Obj(InitialSelectors),
        "pagination" := Obj(InitialPagination)]

  /** One nested section of the edit-mode form: the section's defaults overridden key
      by key by the stored site's own section. */
  function MergedSection(site: map<string, Value>, section: string): (merged: map<string, Value>)
    requires section in Sections
    ensures merged.Keys == Sections[section].Keys + SectionOf(site, section).Keys
    ensures forall key :: key in SectionOf(site, section) ==> merged[key] == SectionOf(site, section)[key]
    ensures forall key :: key in Sections[section] && key !in SectionOf(site, section) ==>
      merged[key] == Sections[section][key]
  {
    Sections[section] + SectionOf(site, section)
  }

  /** The form of edit mode: the defaults overridden by the stored site, with the
      nested sections merged key by key. */
  function EditForm(site: map<string, Value>): map<string, Value> {
    InitialForm + site
      + map["selectors" := Obj(MergedSection(site, "selectors")),
            "pagination" := Obj(MergedSection(site, "pagination"))]
  }

  /** Every key of the defaults and of the stored site is in the edit form; stored
      top-level values win over the defaults. */
  lemma EditFormTopLevel(site: map<string, Value>)
    ensures EditForm(site).Keys == InitialForm.Keys + site.Keys
    ensures forall k :: k in site && k !in Sections ==> EditForm(site)[k] == site[k]
    ensures forall k :: k in InitialForm && k !in site && k !in Sections ==> EditForm(site)[k] == InitialForm[k]
  {
    assert "selectors" in InitialForm && "pagination" in InitialForm;
    assert Sections.Keys == {"selectors", "pagination"};
  }

  /** Each nested section of the edit form is that section's merge: every default
      nested key is present, and the stored site's own nested values win. */
  lemma EditFormMerge(site: map<string, Value>)
    ensures SectionOf(EditForm(site), "selectors") == MergedSection(site, "selectors")
    ensures SectionOf(EditForm(site), "pagination") == MergedSection(site, "pagination")
    ensures InitialSelectors.Keys <= SectionOf(EditForm(site), "selectors").Keys
    ensures InitialPagination.Keys <= SectionOf(EditForm(site), "pagination").Keys
  {
    var selectors, pagination := MergedSection(site, "selectors"), MergedSection(site, "pagination");
    SectionsWin(InitialForm + site, selectors, pagination);
    assert Sections["selectors"] == InitialSelectors && Sections["pagination"] == InitialPagination;
  }

  /** Writing both sections last makes them the form's sections. */
  lemma SectionsWin(form: map<string, Value>, selectors: map<string, Value>, pagination: map<string, Value>)
    ensures SectionOf(form + map["selectors" := Obj(selectors), "pagination" := Obj(pagination)], "selectors") == selectors
    ensures SectionOf(form + map["selectors" := Obj(selectors), "pagination" := Obj(pagination)], "pagination") == pagination
    ensures (form + map["selectors" := Obj(selectors), "pagination" := Obj(pagination)])["selectors"] == Obj(selectors)
    ensures (form + map["selectors" := Obj(selectors), "pagination" := Obj(pagination)])["pagination"] == Obj(pagination)
  {
  }

  /** A site that stores no section of its own gets the default sections back. */
  lemma EditFormDefaultSections(site: map<string, Value>)
    requires SectionOf(site, "selectors") == map[] && SectionOf(site, "pagination") == map[]
    ensures EditForm(site)["selectors"] == InitialForm["selectors"]
    ensures EditForm(site)["pagination"] == InitialForm["pagination"]
  {
    var selectors, pagination := MergedSection(site, "selectors"), MergedSection(site, "pagination");
    assert Sections["selectors"] == InitialSelectors && Sections["pagination"] == InitialPagination;
    assert selectors == InitialSelectors;
    assert pagination == InitialPagination;
    SectionsWin(InitialForm + site, selectors, pagination);
  }

  // ------------------------------------------------------------------
  // Field changes
  // ------------------------------------------------------------------

  /** The parts of an input's change event the handler reads. */
  datatype Input = Input(name: string, value: string, isCheckbox: bool, checked: bool)

  /** A checkbox stores whether it is checked; any other input stores its text. */
  function InputValue(input: Input): (v: Value)
    ensures input.isCheckbox <==> v.Flag?
    ensures v.Flag? ==> v.b == input.checked
    ensures v.Text? ==> v.s == input.value
  {
    if input.isCheckbox then Flag(input.checked) else Text(input.value)
  }

  /** An optional handler argument that is present and non-empty. */
  predicate IsGiven(arg: Option<string>) {
    arg.Some? && arg.value != ""
  }

  /** `subField || name`: the nested key a sectioned change writes. */
  function FieldKey(input: Input, subField: Option<string>): (key: string)
    ensures IsGiven(subField) ==> key == subField.value
    ensures !IsGiven(subField) ==> key == input.name
  {
    if IsGiven(subField) then subField.value else input.name
  }

  /** The change regenerates the slug: a top-level `name` change in add mode. */
  predicate RegeneratesSlug(input: Input, section: Option<string>, editing: bool) {
    !IsGiven(section) && input.name == "name" && !editing
  }

  /** `setFormData(prev => ({...prev, [section]: {...prev[section], [key]: val}}))`. */
  function SectionChange(form: map<string, Value>, section: string, key: string, val: Value): (r: map<string, Value>)
    ensures r.Keys == form.Keys + {section}
    ensures forall k :: k in form && k != section ==> r[k] == form[k]
    ensures SectionOf(r, section).Keys == SectionOf(form, section).Keys + {key}
    ensures SectionOf(r, section)[key] == val
    ensures forall k :: k in SectionOf(form, section) && k != key ==>
      SectionOf(r, section)[k] == SectionOf(form, section)[k]
  {
    form[section := Obj(SectionOf(form, section)[key := val])]
  }

  /** The whole of `handleChange`: a sectioned change, or a top-level change that in
      add mode also writes the slug of the new name. The name input is a text input:
      a checkbox named `name` would make `toLowerCase` throw. */
  function Changed(form: map<string, Value>, input: Input, section: Option<string>, subField: Option<string>,
                   editing: bool): (r: map<string, Value>)
    requires RegeneratesSlug(input, section, editing) ==> !input.isCheckbox
    ensures IsGiven(section) ==> r == SectionChange(form, section.value, FieldKey(input, subField), InputValue(input))
    ensures !IsGiven(section) ==> input.name in r && r[input.name] == InputValue(input)
    ensures RegeneratesSlug(input, section, editing) ==> r.Keys == form.Keys + {"name", "slug"}
    ensures RegeneratesSlug(input, section, editing) ==> r["slug"] == Text(Slugify(input.value))
    ensures !IsGiven(section) && !RegeneratesSlug(input, section, editing) ==> r.Keys == form.Keys + {input.name}
    ensures !IsGiven(section) ==> forall k :: k in form && k != input.name && !(k == "slug" && RegeneratesSlug(input, section, editing)) ==> r[k] == form[k]
  {
    if IsGiven(section) then
      SectionChange(form, section.value, FieldKey(input, subField), InputValue(input))
    else
      var next := form[input.name := InputValue(input)];
      if input.name == "name" && !editing then next["name" := Text(input.value)]["slug" := Text(Slugify(input.value))]
      else next
  }

  /** In add mode the slug always follows the name: it is the well-formed slug of the
      text just typed. In edit mode a change to any other field leaves the slug alone. */
  lemma SlugFollowsName(form: map<string, Value>, input: Input, section: Option<string>, subField: Option<string>,
                        editing: bool)
    requires RegeneratesSlug(input, section, editing) ==> !input.isCheckbox
    ensures RegeneratesSlug(input, section, editing) ==>
      var r := Changed(form, input, section, subField, editing);
      r["name"].Text? && r["slug"] == Text(Slugify(r["name"].s)) && WellFormedSlug(r["slug"].s)
    ensures editing && "slug" in form && input.name != "slug" && !(IsGiven(section) && section.value == "slug") ==>
      Changed(form, input, section, subField, editing)["slug"] == form["slug"]
  {
    SlugifyWellFormed(input.value);
  }

  // ------------------------------------------------------------------
  // Submit
  // ------------------------------------------------------------------

  datatype Verb = Post | Put

  datatype Request = Request(verb: Verb, url: string, body: map<string, Value>)

  /** Update the stored site at `WEBSITES/<_id>` when editing, otherwise create one at
      `WEBSITES`; the body is the whole form. */
  function SubmitRequest(websiteToEdit: Option<map<string, Value>>, form: map<string, Value>): (req: Request)
    ensures req.verb == Put <==> websiteToEdit.Some?
    ensures websiteToEdit.None? ==> req.url == Endpoints.Websites
    ensures websiteToEdit.Some? ==> req.url == Endpoints.Websites + "/" + TemplateText(Get(websiteToEdit.value, "_id"))
    ensures req.body == form
  {
    match websiteToEdit
    case None => Request(Post, Endpoints.Websites, form)
    case Some(site) => Request(Put, Endpoints.Websites + "/" + TemplateText(Get(site, "_id")), form)
  }

  /** Two stored sites with different text ids are updated at different addresses, and
      no update goes to the creation address. */
  lemma UpdateUrlsDistinct(a: map<string, Value>, b: map<string, Value>, form: map<string, Value>)
    requires Get(a, "_id").Some? && Get(a, "_id").value.Text?
    requires Get(b, "_id").Some? && Get(b, "_id").value.Text?
    requires a["_id"] != b["_id"]
    ensures SubmitRequest(Some(a), form).url != SubmitRequest(Some(b), form).url
    ensures SubmitRequest(Some(a), form).url != SubmitRequest(None, form).url
  {
    var prefix := Endpoints.Websites + "/";
    var ua := SubmitRequest(Some(a), form).url;
    var ub := SubmitRequest(Some(b), form).url;
    assert ua[|prefix|..] == a["_id"].s;
    assert ub[|prefix|..] == b["_id"].s;
    assert |ua| > |Endpoints.Websites|;
  }

  /** How the request ended: a reply with its `ok` flag and JSON object, or an
      exception (network failure, unreadable body) with its message. */
  datatype SubmitOutcome = Replied(ok: bool, data: map<string, Value>) | Threw(message: string)

  /** The error shown for a refused request: `data.message || "Operation failed"`. */
  function RefusalText(data: map<string, Value>): string {
    if Truthy(Get(data, "message")) then TemplateText(Get(data, "message")) else "Operation failed"
  }

  /** A refused request always shows a non-empty error: the server's own message when
      it sent a usable one, otherwise the fallback. */
  lemma RefusalTextNonEmpty(data: map<string, Value>)
    ensures RefusalText(data) != ""
    ensures Get(data, "message") == Some(Text("")) ==> RefusalText(data) == "Operation failed"
    ensures forall m :: Get(data, "message") == Some(Text(m)) && m != "" ==> RefusalText(data) == m
  {
  }

  /** The `error` state after the request: none on success, otherwise the message. */
  function SubmitError(outcome: SubmitOutcome): (e: Option<string>)
    ensures e.None? <==> outcome.Replied? && outcome.ok
    ensures outcome.Threw? ==> e == Some(outcome.message)
    ensures outcome.Replied? && !outcome.ok ==> e == Some(RefusalText(outcome.data))
  {
    match outcome
    case Replied(ok, data) => if ok then None else Some(RefusalText(data))
    case Threw(message) => Some(message)
  }

  // ------------------------------------------------------------------
  // The modal's state
  // ------------------------------------------------------------------

  class AddWebsiteModal {
    var formData: map<string, Value>
    var loading: bool
    var error: Option<string>
    var activeTab: string
    /** The `websiteToEdit` prop: the stored site in edit mode, absent in add mode. */
    var websiteToEdit: Option<map<string, Value>>

    constructor(websiteToEdit: Option<map<string, Value>>)
      ensures formData == InitialForm && !loading && error.None? && activeTab == "basic"
      ensures this.websiteToEdit == websiteToEdit
    {
      formData := InitialForm;
      loading := false;
      error := None;
      activeTab := "basic";
      this.websiteToEdit := websiteToEdit;
    }

    /** The effect run when `isOpen` or `websiteToEdit` change: when open, the form is
        refilled (merged in edit mode, reset in add mode), the tab goes back to "basic"
        and the error is cleared. */
    method Populate(isOpen: bool, site: Option<map<string, Value>>)
      modifies this
      ensures websiteToEdit == site && loading == old(loading)
      ensures isOpen ==> formData == (if site.Some? then EditForm(site.value) else InitialForm)
      ensures isOpen ==> activeTab == "basic" && error.None?
      ensures !isOpen ==> formData == old(formData) && activeTab == old(activeTab) && error == old(error)
    {
      websiteToEdit := site;
      if isOpen {
        match site {
          case Some(s) => formData := EditForm(s);
          case None => formData := InitialForm;
        }
        activeTab := "basic";
        error := None;
      }
    }

    /** `handleChange(e, section, subField)`. */
    method HandleChange(input: Input, section: Option<string>, subField: Option<string>)
      requires RegeneratesSlug(input, section, websiteToEdit.Some?) ==> !input.isCheckbox
      modifies this`formData
      ensures formData == Changed(old(formData), input, section, subField, websiteToEdit.Some?)
    {
      formData := Changed(formData, input, section, subField, websiteToEdit.Some?);
    }

    /** `handleSubmit` up to the `fetch`: loading on, error cleared, and the request. */
    method BeginSubmit() returns (request: Request)
      modifies this`loading, this`error
      ensures loading && error.None?
      ensures request == SubmitRequest(websiteToEdit, formData)
    {
      loading := true;
      error := None;
      request := SubmitRequest(websiteToEdit, formData);
    }

    /** `handleSubmit` after the request: `closed` says whether `onSuccess` and `onClose`
        were called; loading always ends. */
    method FinishSubmit(outcome: SubmitOutcome) returns (closed: bool)
      modifies this`loading, this`error
      ensures !loading
      ensures closed <==> outcome.Replied? && outcome.ok
      ensures error == (if closed then old(error) else SubmitError(outcome))
    {
      closed := outcome.Replied? && outcome.ok;
      if !closed {
        error := SubmitError(outcome);
      }
      loading := false;
    }
  }
}
