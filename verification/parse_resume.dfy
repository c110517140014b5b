/** The résumé-parsing endpoint (`POST /api/parse-resume`).

    The handler reads `resumeUrl` from the JSON body and runs three checks in
    order: the URL is present, the language-model API key is configured, the
    URL parses. The first check that fails decides the response. When all
    pass, the language model reads the document and its answer is validated
    against the résumé schema, which fills in defaults. Anything thrown on
    the way becomes a 500 "Failed to parse resume" response.

    The schema is modelled as a parser from `Json` to `ParsedResume`, with
    zod's object rules: a missing property takes its default or stays
    absent, `null` is not a missing property, and unknown properties are
    dropped. The model call and the URL parser are parameters.
 */
module ParseResume {
  import opened Wrappers
  import opened Json
  import opened Interfaces

  /** The schema check's rejection; the library's message text is not
      modelled. */
  const SchemaMismatch := Error("response did not match schema")

  // ---------------------------------------------------------------------
  // Property readers of the schema
  // ---------------------------------------------------------------------

  /** `z.string().optional()`: absent stays absent, a string is kept,
      anything else (including `null`) is rejected. */
  function OptionalString(f: map<string, Json>, key: string): (r: Result<Option<string>>)
    ensures r.Ok? <==> key !in f || f[key].Str?
    ensures r.Ok? ==> (r.value.Some? <==> key in f)
    ensures r.Ok? && key in f ==> f[key] == Str(r.value.value)
  {
    if key !in f then Ok(None)
    else if f[key].Str? then Ok(Some(f[key].s))
    else Err(SchemaMismatch)
  }

  /** `z.string().optional().default('')`: absent becomes "". */
  function DefaultString(f: map<string, Json>, key: string): (r: Result<Option<string>>)
    ensures r.Ok? <==> key !in f || f[key].Str?
    ensures r.Ok? ==> r.value.Some?
    ensures r.Ok? && key !in f ==> r.value.value == ""
    ensures r.Ok? && key in f ==> f[key] == Str(r.value.value)
  {
    if key !in f then Ok(Some(""))
    else if f[key].Str? then Ok(Some(f[key].s))
    else Err(SchemaMismatch)
  }

  /** `z.array(z.string()).optional().default([])`: absent becomes []. */
  function DefaultStrings(f: map<string, Json>, key: string): (r: Result<Option<seq<string>>>)
    ensures r.Ok? <==> key !in f || (f[key].Arr? && StringList(f[key].items).Some?)
    ensures r.Ok? ==> r.value.Some?
    ensures r.Ok? && key !in f ==> r.value.value == []
    ensures r.Ok? && key in f ==> f[key] == Arr(StringsToJson(r.value.value))
  {
    if key !in f then Ok(Some([]))
    else if !f[key].Arr? then Err(SchemaMismatch)
    else
      match StringList(f[key].items)
      case None => Err(SchemaMismatch)
      case Some(ss) =>
        assert StringsToJson(ss) == f[key].items;
        Ok(Some(ss))
  }

  /** `z.array(schema)`: every element must pass the element schema. */
  function ParseList<T>(items: seq<Json>, parse: Json -> Result<T>): (r: Result<seq<T>>)
    ensures r.Ok? <==> forall i :: 0 <= i < |items| ==> parse(items[i]).Ok?
    ensures r.Ok? ==> |r.value| == |items|
    ensures r.Ok? ==> forall i :: 0 <= i < |items| ==> parse(items[i]) == Ok(r.value[i])
    decreases |items|
  {
    if |items| == 0 then Ok([])
    else
      match parse(items[0])
      case Err(e) => Err(e)
      case Ok(x) =>
        match ParseList(items[1..], parse)
        case Err(e) => Err(e)
        case Ok(rest) =>
          assert forall i :: 1 <= i < |items| ==> items[i] == items[1..][i - 1];
          Ok([x] + rest)
  }

  /** `z.array(schema).optional().default([])`. */
  function DefaultList<T>(f: map<string, Json>, key: string, parse: Json -> Result<T>): (r: Result<Option<seq<T>>>)
    ensures r.Ok? ==> r.value.Some?
    ensures key !in f ==> r == Ok(Some([]))
    ensures key in f && !f[key].Arr? ==> r.Err?
  {
    if key !in f then Ok(Some([]))
    else if !f[key].Arr? then Err(SchemaMismatch)
    else
      var xs :- ParseList(f[key].items, parse);
      Ok(Some(xs))
  }

  // ---------------------------------------------------------------------
  // The element schemas
  // ---------------------------------------------------------------------

  function ParseWorkExperience(j: Json): (r: Result<WorkExperience>)
    ensures !j.Obj? ==> r.Err?
    ensures r.Ok? ==> WorkDefaults(r.value) == r.value
  {
    if !j.Obj? then Err(SchemaMismatch)
    else
      var f := j.fields;
      var title :- DefaultString(f, "title");
      var company :- DefaultString(f, "company");
      var startDate :- DefaultString(f, "startDate");
      var endDate :- DefaultString(f, "endDate");
      var description :- OptionalString(f, "description");
      var achievements :- DefaultStrings(f, "achievements");
      Ok(WorkExperience(title, company, startDate, endDate, description, achievements))
  }

  function ParseEducation(j: Json): (r: Result<Education>)
    ensures !j.Obj? ==> r.Err?
    ensures r.Ok? ==> EducationDefaults(r.value) == r.value
  {
    if !j.Obj? then Err(SchemaMismatch)
    else
      var f := j.fields;
      var degree :- DefaultString(f, "degree");
      var institution :- DefaultString(f, "institution");
      var startDate :- DefaultString(f, "startDate");
      var endDate :- DefaultString(f, "endDate");
      var fieldOfStudy :- OptionalString(f, "fieldOfStudy");
      var gpa :- OptionalString(f, "gpa");
      Ok(Education(degree, institution, startDate, endDate, fieldOfStudy, gpa))
  }

  function ParseSkill(j: Json): (r: Result<Skill>)
    ensures !j.Obj? ==> r.Err?
    ensures r.Ok? ==> r.value.name.Some?
  {
    if !j.Obj? then Err(SchemaMismatch)
    else
      var name :- DefaultString(j.fields, "name");
      Ok(Skill(name))
  }

  function ParseLanguage(j: Json): (r: Result<Language>)
    ensures !j.Obj? ==> r.Err?
    ensures r.Ok? ==> r.value.language.Some? && r.value.level.Some?
  {
    if !j.Obj? then Err(SchemaMismatch)
    else
      var language :- DefaultString(j.fields, "language");
      var level :- DefaultString(j.fields, "level");
      Ok(Language(language, level))
  }

  function ParseCertification(j: Json): (r: Result<Certification>)
    ensures !j.Obj? ==> r.Err?
    ensures r.Ok? ==> CertificationDefaults(r.value) == r.value
  {
    if !j.Obj? then Err(SchemaMismatch)
    else
      var f := j.fields;
      var name :- DefaultString(f, "name");
      var issuer :- DefaultString(f, "issuer");
      var date :- DefaultString(f, "date");
      var expiryDate :- OptionalString(f, "expiryDate");
      var credentialId :- OptionalString(f, "credentialId");
      Ok(Certification(name, issuer, date, expiryDate, credentialId))
  }

  function ParseProject(j: Json): (r: Result<Project>)
    ensures !j.Obj? ==> r.Err?
    ensures r.Ok? ==> ProjectDefaults(r.value) == r.value
  {
    if !j.Obj? then Err(SchemaMismatch)
    else
      var f := j.fields;
      var name :- DefaultString(f, "name");
      var description :- DefaultString(f, "description");
      var startDate :- OptionalString(f, "startDate");
      var endDate :- OptionalString(f, "endDate");
      var technologies :- DefaultStrings(f, "technologies");
      var url :- OptionalString(f, "url");
      Ok(Project(name, description, startDate, endDate, technologies, url))
  }

  /** Every contact field is optional, and so is the object itself. */
  function ParsePersonalInfo(j: Json): (r: Result<PersonalInfo>)
    ensures !j.Obj? ==> r.Err?
  {
    if !j.Obj? then Err(SchemaMismatch)
    else
      var f := j.fields;
      var name :- OptionalString(f, "name");
      var email :- OptionalString(f, "email");
      var phone :- OptionalString(f, "phone");
      var location :- OptionalString(f, "location");
      var linkedin :- OptionalString(f, "linkedin");
      var github :- OptionalString(f, "github");
      var website :- OptionalString(f, "website");
      Ok(PersonalInfo(name, email, phone, location, linkedin, github, website))
  }

  function OptionalPersonalInfo(f: map<string, Json>): (r: Result<Option<PersonalInfo>>)
    ensures "personalInfo" !in f ==> r == Ok(None)
    ensures "personalInfo" in f ==> r.Ok? == ParsePersonalInfo(f["personalInfo"]).Ok?
  {
    if "personalInfo" !in f then Ok(None)
    else
      var p :- ParsePersonalInfo(f["personalInfo"]);
      Ok(Some(p))
  }

  /** The résumé schema. Its result always carries the six lists. */
  /** Elements validated by a schema whose results are in normal form
      make a list in normal form. */
  lemma DefaultListNormal<T>(f: map<string, Json>, key: string, parse: Json -> Result<T>, norm: T -> T)
    requires forall j :: parse(j).Ok? ==> norm(parse(j).value) == parse(j).value
    requires DefaultList(f, key, parse).Ok?
    ensures var xs := DefaultList(f, key, parse).value.value; Each(xs, norm) == xs
  {
  }

  function ParseParsedResume(j: Json): (r: Result<ParsedResume>)
    ensures !j.Obj? ==> r.Err?
    ensures r.Ok? ==> ResumeDefaults(r.value) == r.value
  {
    if !j.Obj? then Err(SchemaMismatch)
    else
      var f := j.fields;
      var personalInfo :- OptionalPersonalInfo(f);
      var summary :- OptionalString(f, "summary");
      var experiences :- DefaultList(f, "experiences", ParseWorkExperience);
      var education :- DefaultList(f, "education", ParseEducation);
      var skills :- DefaultList(f, "skills", ParseSkill);
      var certifications :- DefaultList(f, "certifications", ParseCertification);
      var projects :- DefaultList(f, "projects", ParseProject);
      var languages :- DefaultList(f, "languages", ParseLanguage);
      var r := ParsedResume(personalInfo, summary, experiences, education, skills,
                            certifications, projects, languages);
      DefaultListNormal(f, "experiences", ParseWorkExperience, WorkDefaults);
      DefaultListNormal(f, "education", ParseEducation, EducationDefaults);
      DefaultListNormal(f, "skills", ParseSkill, SkillDefaults);
      DefaultListNormal(f, "certifications", ParseCertification, CertificationDefaults);
      DefaultListNormal(f, "projects", ParseProject, ProjectDefaults);
      DefaultListNormal(f, "languages", ParseLanguage, LanguageDefaults);
      Ok(r)
  }

  // ---------------------------------------------------------------------
  // The schema's defaults, stated on records
  // ---------------------------------------------------------------------

  /** `xs.map(f)`. */
  function Each<A, B>(xs: seq<A>, f: A -> B): (ys: seq<B>)
    ensures |ys| == |xs| && forall i :: 0 <= i < |xs| ==> ys[i] == f(xs[i])
  {
    seq(|xs|, i requires 0 <= i < |xs| => f(xs[i]))
  }

  function WorkDefaults(w: WorkExperience): WorkExperience {
    w.(title := Some(w.title.GetOr("")),
       company := Some(w.company.GetOr("")),
       startDate := Some(w.startDate.GetOr("")),
       endDate := Some(w.endDate.GetOr("")),
       achievements := Some(w.achievements.GetOr([])))
  }

  function EducationDefaults(e: Education): Education {
    e.(degree := Some(e.degree.GetOr("")),
       institution := Some(e.institution.GetOr("")),
       startDate := Some(e.startDate.GetOr("")),
       endDate := Some(e.endDate.GetOr("")))
  }

  function SkillDefaults(s: Skill): Skill {
    s.(name := Some(s.name.GetOr("")))
  }

  function LanguageDefaults(l: Language): Language {
    l.(language := Some(l.language.GetOr("")), level := Some(l.level.GetOr("")))
  }

  function CertificationDefaults(c: Certification): Certification {
    c.(name := Some(c.name.GetOr("")),
       issuer := Some(c.issuer.GetOr("")),
       date := Some(c.date.GetOr("")))
  }

  function ProjectDefaults(p: Project): Project {
    p.(name := Some(p.name.GetOr("")),
       description := Some(p.description.GetOr("")),
       technologies := Some(p.technologies.GetOr([])))
  }

  /** Missing lists become [] and every element gets its own defaults;
      the contact block and the summary stay as they are. */
  function ResumeDefaults(r: ParsedResume): ParsedResume {
    r.(experiences := Some(Each(r.experiences.GetOr([]), WorkDefaults)),
       education := Some(Each(r.education.GetOr([]), EducationDefaults)),
       skills := Some(Each(r.skills.GetOr([]), SkillDefaults)),
       certifications := Some(Each(r.certifications.GetOr([]), CertificationDefaults)),
       projects := Some(Each(r.projects.GetOr([]), ProjectDefaults)),
       languages := Some(Each(r.languages.GetOr([]), LanguageDefaults)))
  }

  // ---------------------------------------------------------------------
  // Encoding: a record as the JSON the model answers with, absent
  // properties omitted
  // ---------------------------------------------------------------------

  /** The object whose properties are the keys in `keys` that `value`
      gives a value for. */
  function Props(keys: set<string>, value: string -> Option<Json>): (m: map<string, Json>)
    ensures forall k :: k in m <==> k in keys && value(k).Some?
    ensures forall k :: k in m ==> m[k] == value(k).value
  {
    map k | k in keys && value(k).Some? :: value(k).value
  }

  function StrJson(v: Option<string>): Option<Json> {
    if v.Some? then Some(Str(v.value)) else None
  }

  function StrsJson(v: Option<seq<string>>): Option<Json> {
    if v.Some? then Some(Arr(StringsToJson(v.value))) else None
  }

  function ListJson<T>(v: Option<seq<T>>, enc: T -> Json): Option<Json> {
    if v.Some? then Some(Arr(Each(v.value, enc))) else None
  }

  const WorkKeys: set<string> := {"title", "company", "startDate", "endDate", "description", "achievements"}

  function WorkProperty(w: WorkExperience, k: string): Option<Json> {
    if k == "title" then StrJson(w.title)
    else if k == "company" then StrJson(w.company)
    else if k == "startDate" then StrJson(w.startDate)
    else if k == "endDate" then StrJson(w.endDate)
    else if k == "description" then StrJson(w.description)
    else if k == "achievements" then StrsJson(w.achievements)
    else None
  }

  function EncodeWorkExperience(w: WorkExperience): Json {
    Obj(Props(WorkKeys,
              k => WorkProperty(w, k)))
  }

  const EducationKeys: set<string> := {"degree", "institution", "startDate", "endDate", "fieldOfStudy", "gpa"}

  function EducationProperty(e: Education, k: string): Option<Json> {
    if k == "degree" then StrJson(e.degree)
    else if k == "institution" then StrJson(e.institution)
    else if k == "startDate" then StrJson(e.startDate)
    else if k == "endDate" then StrJson(e.endDate)
    else if k == "fieldOfStudy" then StrJson(e.fieldOfStudy)
    else if k == "gpa" then StrJson(e.gpa)
    else None
  }

  function EncodeEducation(e: Education): Json {
    Obj(Props(EducationKeys,
              k => EducationProperty(e, k)))
  }

  function EncodeSkill(s: Skill): Json {
    Obj(Props({"name"}, k => if k == "name" then StrJson(s.name) else None))
  }

  function EncodeLanguage(l: Language): Json {
    Obj(Props({"language", "level"},
              k => if k == "language" then StrJson(l.language)
                   else if k == "level" then StrJson(l.level)
                   else None))
  }

  const CertificationKeys: set<string> := {"name", "issuer", "date", "expiryDate", "credentialId"}

  function CertificationProperty(c: Certification, k: string): Option<Json> {
    if k == "name" then StrJson(c.name)
    else if k == "issuer" then StrJson(c.issuer)
    else if k == "date" then StrJson(c.date)
    else if k == "expiryDate" then StrJson(c.expiryDate)
    else if k == "credentialId" then StrJson(c.credentialId)
    else None
  }

  function EncodeCertification(c: Certification): Json {
    Obj(Props(CertificationKeys,
              k => CertificationProperty(c, k)))
  }

  const ProjectKeys: set<string> := {"name", "description", "startDate", "endDate", "technologies", "url"}

  function ProjectProperty(p: Project, k: string): Option<Json> {
    if k == "name" then StrJson(p.name)
    else if k == "description" then StrJson(p.description)
    else if k == "startDate" then StrJson(p.startDate)
    else if k == "endDate" then StrJson(p.endDate)
    else if k == "technologies" then StrsJson(p.technologies)
    else if k == "url" then StrJson(p.url)
    else None
  }

  function EncodeProject(p: Project): Json {
    Obj(Props(ProjectKeys,
              k => ProjectProperty(p, k)))
  }

  const PersonalInfoKeys: set<string> := {"name", "email", "phone", "location", "linkedin", "github", "website"}

  function PersonalInfoProperty(p: PersonalInfo, k: string): Option<Json> {
    if k == "name" then StrJson(p.name)
    else if k == "email" then StrJson(p.email)
    else if k == "phone" then StrJson(p.phone)
    else if k == "location" then StrJson(p.location)
    else if k == "linkedin" then StrJson(p.linkedin)
    else if k == "github" then StrJson(p.github)
    else if k == "website" then StrJson(p.website)
    else None
  }

  function EncodePersonalInfo(p: PersonalInfo): Json {
    Obj(Props(PersonalInfoKeys,
              k => PersonalInfoProperty(p, k)))
  }

  const ResumeKeys: set<string> :=
    {"personalInfo", "summary", "experiences", "education", "skills",
     "certifications", "projects", "languages"}

  function ResumeProperty(r: ParsedResume, k: string): Option<Json> {
    if k == "personalInfo" then
      (if r.personalInfo.Some? then Some(EncodePersonalInfo(r.personalInfo.value)) else None)
    else if k == "summary" then StrJson(r.summary)
    else if k == "experiences" then ListJson(r.experiences, EncodeWorkExperience)
    else if k == "education" then ListJson(r.education, EncodeEducation)
    else if k == "skills" then ListJson(r.skills, EncodeSkill)
    else if k == "certifications" then ListJson(r.certifications, EncodeCertification)
    else if k == "projects" then ListJson(r.projects, EncodeProject)
    else if k == "languages" then ListJson(r.languages, EncodeLanguage)
    else None
  }

  function EncodeParsedResume(r: ParsedResume): Json {
    Obj(Props(ResumeKeys,
              k => ResumeProperty(r, k)))
  }

  // ---------------------------------------------------------------------
  // Round trips: validating an encoded record applies exactly the defaults
  // ---------------------------------------------------------------------

  /** What an encoded map says about one string property. */
  predicate StringAt(m: map<string, Json>, key: string, v: Option<string>) {
    (key in m <==> v.Some?) && (v.Some? ==> m[key] == Str(v.value))
  }

  predicate StringsAt(m: map<string, Json>, key: string, v: Option<seq<string>>) {
    (key in m <==> v.Some?) && (v.Some? ==> m[key] == Arr(StringsToJson(v.value)))
  }

  lemma ReadString(m: map<string, Json>, key: string, v: Option<string>)
    requires StringAt(m, key, v)
    ensures OptionalString(m, key) == Ok(v)
    ensures DefaultString(m, key) == Ok(Some(v.GetOr("")))
  {
  }

  lemma ReadStrings(m: map<string, Json>, key: string, v: Option<seq<string>>)
    requires StringsAt(m, key, v)
    ensures DefaultStrings(m, key) == Ok(Some(v.GetOr([])))
  {
    if v.Some? {
      StringListOfStrings(v.value);
    }
  }

  /** A string property of an encoded object reads back as it was. */
  lemma ReadProp(keys: set<string>, value: string -> Option<Json>, key: string, v: Option<string>)
    requires key in keys && value(key) == StrJson(v)
    ensures OptionalString(Props(keys, value), key) == Ok(v)
    ensures DefaultString(Props(keys, value), key) == Ok(Some(v.GetOr("")))
  {
    ReadString(Props(keys, value), key, v);
  }

  /** A string-array property of an encoded object reads back as it was. */
  lemma ReadProps(keys: set<string>, value: string -> Option<Json>, key: string, v: Option<seq<string>>)
    requires key in keys && value(key) == StrsJson(v)
    ensures DefaultStrings(Props(keys, value), key) == Ok(Some(v.GetOr([])))
  {
    ReadStrings(Props(keys, value), key, v);
  }

  lemma WorkRoundTrip(w: WorkExperience)
    ensures ParseWorkExperience(EncodeWorkExperience(w)) == Ok(WorkDefaults(w))
  {
    WorkReadsA(w);
    WorkReadsB(w);
    WorkFromParts(EncodeWorkExperience(w).fields, WorkDefaults(w));
  }

  lemma WorkReadsA(w: WorkExperience)
    ensures var m := EncodeWorkExperience(w).fields;
      && DefaultString(m, "title") == Ok(WorkDefaults(w).title)
      && DefaultString(m, "company") == Ok(WorkDefaults(w).company)
      && DefaultString(m, "startDate") == Ok(WorkDefaults(w).startDate)
  {
    var m := EncodeWorkExperience(w).fields;
    ReadProp(WorkKeys, k => WorkProperty(w, k), "title", w.title);
    ReadProp(WorkKeys, k => WorkProperty(w, k), "company", w.company);
    ReadProp(WorkKeys, k => WorkProperty(w, k), "startDate", w.startDate);
  }

  lemma WorkReadsB(w: WorkExperience)
    ensures var m := EncodeWorkExperience(w).fields;
      && DefaultString(m, "endDate") == Ok(WorkDefaults(w).endDate)
      && OptionalString(m, "description") == Ok(WorkDefaults(w).description)
      && DefaultStrings(m, "achievements") == Ok(WorkDefaults(w).achievements)
  {
    var m := EncodeWorkExperience(w).fields;
    ReadProp(WorkKeys, k => WorkProperty(w, k), "endDate", w.endDate);
    ReadProp(WorkKeys, k => WorkProperty(w, k), "description", w.description);
    ReadProps(WorkKeys, k => WorkProperty(w, k), "achievements", w.achievements);
  }

  /** The work schema assembles what its property readers return. */
  lemma WorkFromParts(f: map<string, Json>, w: WorkExperience)
    requires DefaultString(f, "title") == Ok(w.title)
    requires DefaultString(f, "company") == Ok(w.company)
    requires DefaultString(f, "startDate") == Ok(w.startDate)
    requires DefaultString(f, "endDate") == Ok(w.endDate)
    requires OptionalString(f, "description") == Ok(w.description)
    requires DefaultStrings(f, "achievements") == Ok(w.achievements)
    ensures ParseWorkExperience(Obj(f)) == Ok(w)
  {
  }

  lemma EducationRoundTrip(e: Education)
    ensures ParseEducation(EncodeEducation(e)) == Ok(EducationDefaults(e))
  {
    EducationReadsA(e);
    EducationReadsB(e);
    EducationFromParts(EncodeEducation(e).fields, EducationDefaults(e));
  }

  lemma EducationReadsA(e: Education)
    ensures var m := EncodeEducation(e).fields;
      && DefaultString(m, "degree") == Ok(EducationDefaults(e).degree)
      && DefaultString(m, "institution") == Ok(EducationDefaults(e).institution)
      && DefaultString(m, "startDate") == Ok(EducationDefaults(e).startDate)
  {
    var m := EncodeEducation(e).fields;
    ReadProp(EducationKeys, k => EducationProperty(e, k), "degree", e.degree);
    ReadProp(EducationKeys, k => EducationProperty(e, k), "institution", e.institution);
    ReadProp(EducationKeys, k => EducationProperty(e, k), "startDate", e.startDate);
  }

  lemma EducationReadsB(e: Education)
    ensures var m := EncodeEducation(e).fields;
      && DefaultString(m, "endDate") == Ok(EducationDefaults(e).endDate)
      && OptionalString(m, "fieldOfStudy") == Ok(EducationDefaults(e).fieldOfStudy)
      && OptionalString(m, "gpa") == Ok(EducationDefaults(e).gpa)
  {
    var m := EncodeEducation(e).fields;
    ReadProp(EducationKeys, k => EducationProperty(e, k), "endDate", e.endDate);
    ReadProp(EducationKeys, k => EducationProperty(e, k), "fieldOfStudy", e.fieldOfStudy);
    ReadProp(EducationKeys, k => EducationProperty(e, k), "gpa", e.gpa);
  }

  lemma EducationFromParts(f: map<string, Json>, e: Education)
    requires DefaultString(f, "degree") == Ok(e.degree)
    requires DefaultString(f, "institution") == Ok(e.institution)
    requires DefaultString(f, "startDate") == Ok(e.startDate)
    requires DefaultString(f, "endDate") == Ok(e.endDate)
    requires OptionalString(f, "fieldOfStudy") == Ok(e.fieldOfStudy)
    requires OptionalString(f, "gpa") == Ok(e.gpa)
    ensures ParseEducation(Obj(f)) == Ok(e)
  {
  }

  lemma SkillRoundTrip(s: Skill)
    ensures ParseSkill(EncodeSkill(s)) == Ok(SkillDefaults(s))
  {
  }

  lemma LanguageRoundTrip(l: Language)
    ensures ParseLanguage(EncodeLanguage(l)) == Ok(LanguageDefaults(l))
  {
  }

  lemma CertificationRoundTrip(c: Certification)
    ensures ParseCertification(EncodeCertification(c)) == Ok(CertificationDefaults(c))
  {
    var m := EncodeCertification(c).fields;
    ReadProp(CertificationKeys, k => CertificationProperty(c, k), "name", c.name);
    ReadProp(CertificationKeys, k => CertificationProperty(c, k), "issuer", c.issuer);
    ReadProp(CertificationKeys, k => CertificationProperty(c, k), "date", c.date);
    ReadProp(CertificationKeys, k => CertificationProperty(c, k), "expiryDate", c.expiryDate);
    ReadProp(CertificationKeys, k => CertificationProperty(c, k), "credentialId", c.credentialId);
    CertificationFromParts(m, CertificationDefaults(c));
  }

  lemma CertificationFromParts(f: map<string, Json>, c: Certification)
    requires DefaultString(f, "name") == Ok(c.name)
    requires DefaultString(f, "issuer") == Ok(c.issuer)
    requires DefaultString(f, "date") == Ok(c.date)
    requires OptionalString(f, "expiryDate") == Ok(c.expiryDate)
    requires OptionalString(f, "credentialId") == Ok(c.credentialId)
    ensures ParseCertification(Obj(f)) == Ok(c)
  {
  }

  lemma ProjectRoundTrip(p: Project)
    ensures ParseProject(EncodeProject(p)) == Ok(ProjectDefaults(p))
  {
    ProjectReadsA(p);
    ProjectReadsB(p);
    ProjectFromParts(EncodeProject(p).fields, ProjectDefaults(p));
  }

  lemma ProjectReadsA(p: Project)
    ensures var m := EncodeProject(p).fields;
      && DefaultString(m, "name") == Ok(ProjectDefaults(p).name)
      && DefaultString(m, "description") == Ok(ProjectDefaults(p).description)
      && OptionalString(m, "startDate") == Ok(ProjectDefaults(p).startDate)
  {
    var m := EncodeProject(p).fields;
    ReadProp(ProjectKeys, k => ProjectProperty(p, k), "name", p.name);
    ReadProp(ProjectKeys, k => ProjectProperty(p, k), "description", p.description);
    ReadProp(ProjectKeys, k => ProjectProperty(p, k), "startDate", p.startDate);
  }

  lemma ProjectReadsB(p: Project)
    ensures var m := EncodeProject(p).fields;
      && OptionalString(m, "endDate") == Ok(ProjectDefaults(p).endDate)
      && DefaultStrings(m, "technologies") == Ok(ProjectDefaults(p).technologies)
      && OptionalString(m, "url") == Ok(ProjectDefaults(p).url)
  {
    var m := EncodeProject(p).fields;
    ReadProp(ProjectKeys, k => ProjectProperty(p, k), "endDate", p.endDate);
    ReadProps(ProjectKeys, k => ProjectProperty(p, k), "technologies", p.technologies);
    ReadProp(ProjectKeys, k => ProjectProperty(p, k), "url", p.url);
  }

  lemma ProjectFromParts(f: map<string, Json>, p: Project)
    requires DefaultString(f, "name") == Ok(p.name)
    requires DefaultString(f, "description") == Ok(p.description)
    requires OptionalString(f, "startDate") == Ok(p.startDate)
    requires OptionalString(f, "endDate") == Ok(p.endDate)
    requires DefaultStrings(f, "technologies") == Ok(p.technologies)
    requires OptionalString(f, "url") == Ok(p.url)
    ensures ParseProject(Obj(f)) == Ok(p)
  {
  }

  /** The contact block has no defaults: it comes back unchanged. */
  lemma PersonalInfoRoundTrip(p: PersonalInfo)
    ensures ParsePersonalInfo(EncodePersonalInfo(p)) == Ok(p)
  {
    PersonalInfoReadsA(p);
    PersonalInfoReadsB(p);
    PersonalInfoFromParts(EncodePersonalInfo(p).fields, p);
  }

  lemma PersonalInfoReadsA(p: PersonalInfo)
    ensures var m := EncodePersonalInfo(p).fields;
      && OptionalString(m, "name") == Ok(p.name)
      && OptionalString(m, "email") == Ok(p.email)
      && OptionalString(m, "phone") == Ok(p.phone)
      && OptionalString(m, "location") == Ok(p.location)
  {
    var m := EncodePersonalInfo(p).fields;
    ReadProp(PersonalInfoKeys, k => PersonalInfoProperty(p, k), "name", p.name);
    ReadProp(PersonalInfoKeys, k => PersonalInfoProperty(p, k), "email", p.email);
    ReadProp(PersonalInfoKeys, k => PersonalInfoProperty(p, k), "phone", p.phone);
    ReadProp(PersonalInfoKeys, k => PersonalInfoProperty(p, k), "location", p.location);
  }

  lemma PersonalInfoReadsB(p: PersonalInfo)
    ensures var m := EncodePersonalInfo(p).fields;
      && OptionalString(m, "linkedin") == Ok(p.linkedin)
      && OptionalString(m, "github") == Ok(p.github)
      && OptionalString(m, "website") == Ok(p.website)
  {
    var m := EncodePersonalInfo(p).fields;
    ReadProp(PersonalInfoKeys, k => PersonalInfoProperty(p, k), "linkedin", p.linkedin);
    ReadProp(PersonalInfoKeys, k => PersonalInfoProperty(p, k), "github", p.github);
    ReadProp(PersonalInfoKeys, k => PersonalInfoProperty(p, k), "website", p.website);
  }

  lemma PersonalInfoFromParts(f: map<string, Json>, p: PersonalInfo)
    requires OptionalString(f, "name") == Ok(p.name)
    requires OptionalString(f, "email") == Ok(p.email)
    requires OptionalString(f, "phone") == Ok(p.phone)
    requires OptionalString(f, "location") == Ok(p.location)
    requires OptionalString(f, "linkedin") == Ok(p.linkedin)
    requires OptionalString(f, "github") == Ok(p.github)
    requires OptionalString(f, "website") == Ok(p.website)
    ensures ParsePersonalInfo(Obj(f)) == Ok(p)
  {
  }

  /** A list of encoded elements validates to the list of their normal
      forms, whatever the element schema, given that it does so one by one. */
  lemma {:induction false} ListRoundTrip<T>(xs: seq<T>, enc: T -> Json, parse: Json -> Result<T>, norm: T -> T)
    requires forall x :: parse(enc(x)) == Ok(norm(x))
    ensures ParseList(Each(xs, enc), parse) == Ok(Each(xs, norm))
    decreases |xs|
  {
    if |xs| > 0 {
      ListRoundTrip(xs[1..], enc, parse, norm);
      assert Each(xs, enc)[1..] == Each(xs[1..], enc);
      assert Each(xs, norm) == [norm(xs[0])] + Each(xs[1..], norm);
    }
  }

  lemma ReadList<T>(m: map<string, Json>, key: string, xs: Option<seq<T>>,
                    enc: T -> Json, parse: Json -> Result<T>, norm: T -> T)
    requires key in m <==> xs.Some?
    requires xs.Some? ==> m[key] == Arr(Each(xs.value, enc))
    requires forall x :: parse(enc(x)) == Ok(norm(x))
    ensures DefaultList(m, key, parse) == Ok(Some(Each(xs.GetOr([]), norm)))
  {
    ListRoundTrip(xs.GetOr([]), enc, parse, norm);
  }

  /** The résumé schema assembles what its property readers return. */
  lemma ParseFromParts(f: map<string, Json>, r: ParsedResume)
    requires OptionalPersonalInfo(f) == Ok(r.personalInfo)
    requires OptionalString(f, "summary") == Ok(r.summary)
    requires DefaultList(f, "experiences", ParseWorkExperience) == Ok(r.experiences)
    requires DefaultList(f, "education", ParseEducation) == Ok(r.education)
    requires DefaultList(f, "skills", ParseSkill) == Ok(r.skills)
    requires DefaultList(f, "certifications", ParseCertification) == Ok(r.certifications)
    requires DefaultList(f, "projects", ParseProject) == Ok(r.projects)
    requires DefaultList(f, "languages", ParseLanguage) == Ok(r.languages)
    ensures ParseParsedResume(Obj(f)) == Ok(r)
  {
  }

  /** One list property of an encoded résumé validates to its normal form. */
  lemma ResumeList<T>(r: ParsedResume, key: string, xs: Option<seq<T>>,
                      enc: T -> Json, parse: Json -> Result<T>, norm: T -> T)
    requires key in {"experiences", "education", "skills", "certifications", "projects", "languages"}
    requires ResumeProperty(r, key) == ListJson(xs, enc)
    requires forall x :: parse(enc(x)) == Ok(norm(x))
    ensures DefaultList(EncodeParsedResume(r).fields, key, parse) == Ok(Some(Each(xs.GetOr([]), norm)))
  {
    ReadList(EncodeParsedResume(r).fields, key, xs, enc, parse, norm);
  }

  /** The contact block and the summary of an encoded résumé come back
      as they were. */
  lemma ResumePersonalInfo(r: ParsedResume)
    ensures OptionalPersonalInfo(EncodeParsedResume(r).fields) == Ok(r.personalInfo)
  {
    if r.personalInfo.Some? {
      PersonalInfoRoundTrip(r.personalInfo.value);
    }
  }

  lemma ResumeSummary(r: ParsedResume)
    ensures OptionalString(EncodeParsedResume(r).fields, "summary") == Ok(r.summary)
  {
    ReadProp(ResumeKeys, k => ResumeProperty(r, k), "summary", r.summary);
  }

  lemma ResumeExperiences(r: ParsedResume)
    ensures DefaultList(EncodeParsedResume(r).fields, "experiences", ParseWorkExperience) == Ok(ResumeDefaults(r).experiences)
  {
    forall w ensures ParseWorkExperience(EncodeWorkExperience(w)) == Ok(WorkDefaults(w)) {
      WorkRoundTrip(w);
    }
    ResumeList(r, "experiences", r.experiences, EncodeWorkExperience, ParseWorkExperience, WorkDefaults);
  }

  lemma ResumeEducation(r: ParsedResume)
    ensures DefaultList(EncodeParsedResume(r).fields, "education", ParseEducation) == Ok(ResumeDefaults(r).education)
  {
    forall e ensures ParseEducation(EncodeEducation(e)) == Ok(EducationDefaults(e)) {
      EducationRoundTrip(e);
    }
    ResumeList(r, "education", r.education, EncodeEducation, ParseEducation, EducationDefaults);
  }

  lemma ResumeSkills(r: ParsedResume)
    ensures DefaultList(EncodeParsedResume(r).fields, "skills", ParseSkill) == Ok(ResumeDefaults(r).skills)
  {
    forall s ensures ParseSkill(EncodeSkill(s)) == Ok(SkillDefaults(s)) {
      SkillRoundTrip(s);
    }
    ResumeList(r, "skills", r.skills, EncodeSkill, ParseSkill, SkillDefaults);
  }

  lemma ResumeCertifications(r: ParsedResume)
    ensures DefaultList(EncodeParsedResume(r).fields, "certifications", ParseCertification) == Ok(ResumeDefaults(r).certifications)
  {
    forall c ensures ParseCertification(EncodeCertification(c)) == Ok(CertificationDefaults(c)) {
      CertificationRoundTrip(c);
    }
    ResumeList(r, "certifications", r.certifications, EncodeCertification, ParseCertification, CertificationDefaults);
  }

  lemma ResumeProjects(r: ParsedResume)
    ensures DefaultList(EncodeParsedResume(r).fields, "projects", ParseProject) == Ok(ResumeDefaults(r).projects)
  {
    forall p ensures ParseProject(EncodeProject(p)) == Ok(ProjectDefaults(p)) {
      ProjectRoundTrip(p);
    }
    ResumeList(r, "projects", r.projects, EncodeProject, ParseProject, ProjectDefaults);
  }

  lemma ResumeLanguages(r: ParsedResume)
    ensures DefaultList(EncodeParsedResume(r).fields, "languages", ParseLanguage) == Ok(ResumeDefaults(r).languages)
  {
    forall l ensures ParseLanguage(EncodeLanguage(l)) == Ok(LanguageDefaults(l)) {
      LanguageRoundTrip(l);
    }
    ResumeList(r, "languages", r.languages, EncodeLanguage, ParseLanguage, LanguageDefaults);
  }

  /** Validating the encoding of any résumé yields it with the schema's
      defaults filled in; for a résumé already in that form, it yields the
      résumé itself. */
  lemma ResumeRoundTrip(r: ParsedResume)
    ensures ParseParsedResume(EncodeParsedResume(r)) == Ok(ResumeDefaults(r))
  {
    ResumePersonalInfo(r);
    ResumeSummary(r);
    ResumeExperiences(r);
    ResumeEducation(r);
    ResumeSkills(r);
    ResumeCertifications(r);
    ResumeProjects(r);
    ResumeLanguages(r);
    ParseFromParts(EncodeParsedResume(r).fields, ResumeDefaults(r));
  }

  /** An empty answer is a valid résumé: six empty lists and nothing else. */
  lemma EmptyAnswerDefaults()
    ensures ParseParsedResume(Obj(map[])) ==
      Ok(ParsedResume(None, None, Some([]), Some([]), Some([]), Some([]), Some([]), Some([])))
  {
    ResumeRoundTrip(ParsedResume(None, None, None, None, None, None, None, None));
  }

  /** `null` is not a missing property: a defaulted string set to `null`
      fails validation instead of taking its default. */
  lemma NullIsNotMissing(f: map<string, Json>, key: string)
    requires key in f && f[key] == Null
    ensures DefaultString(f, key).Err? && OptionalString(f, key).Err?
  {
  }

  // ---------------------------------------------------------------------
  // The request handler
  // ---------------------------------------------------------------------

  const UrlRequired := "Resume URL is required"
  const MissingApiKey := "Server configuration error: Missing API key"
  const InvalidUrl := "Invalid resume URL format"
  const ParseFailed := "Failed to parse resume"

  /** Destructuring `resumeUrl` out of a `null` body throws. */
  const NullBody := Error("Cannot destructure property 'resumeUrl' of 'body' as it is null.")

  /** A JSON response body: a plain error message, the catch-all failure
      with the thrown error's message, or the validated résumé. */
  datatype Body =
    | Message(error: string)
    | Failure(error: string, details: string)
    | Parsed(success: bool, data: ParsedResume)

  datatype Response = Response(status: nat, body: Body)

  /** `const { resumeUrl } = body`: a `null` body throws; every other
      non-object has no such property. */
  function ResumeUrl(body: Json): (r: Result<Option<Json>>)
    ensures r.Err? <==> body.Null?
    ensures r.Ok? ==> (r.value.Some? <==> body.Obj? && "resumeUrl" in body.fields)
    ensures r.Ok? && r.value.Some? ==> r.value.value == body.fields["resumeUrl"]
  {
    match body
    case Null => Err(NullBody)
    case Obj(f) => Ok(if "resumeUrl" in f then Some(f["resumeUrl"]) else None)
    case _ => Ok(None)
  }

  /** The response of the catch block. */
  function Thrown(e: Error): (resp: Response)
    ensures resp.status == 500 && resp.body.Failure?
    ensures resp.body.error == ParseFailed && resp.body.details == e.message
  {
    Response(500, Failure(ParseFailed, e.message))
  }

  /** The environment's API key counts only when it is a non-empty string. */
  predicate HasApiKey(apiKey: Option<string>) {
    apiKey.Some? && |apiKey.value| > 0
  }

  /** `POST`. `body` is the awaited `request.json()`, `apiKey` the
      environment's key, `validUrl` whether `new URL(value)` succeeds, and
      `generate` the language model's raw answer for the document at the
      URL. */
  function Post(
    body: Result<Json>,
    apiKey: Option<string>,
    validUrl: Json -> bool,
    generate: Json -> Result<Json>): (resp: Response)
    ensures resp.status in {200, 400, 500}
    ensures resp.status == 200 <==> resp.body.Parsed?
    ensures resp.body.Parsed? ==> resp.body.success
    ensures resp.body.Failure? ==> resp == Thrown(Error(resp.body.details))
    ensures body.Err? ==> resp == Thrown(body.error)
    ensures body == Ok(Null) ==> resp == Thrown(NullBody)
    ensures body.Ok? && !body.value.Null? ==>
      var url := ResumeUrl(body.value).value;
      && (!TruthyField(url) ==> resp == Response(400, Message(UrlRequired)))
      && (TruthyField(url) && !HasApiKey(apiKey) ==> resp == Response(500, Message(MissingApiKey)))
      && (TruthyField(url) && HasApiKey(apiKey) && !validUrl(url.value) ==>
            resp == Response(400, Message(InvalidUrl)))
  {
    match body
    case Err(e) => Thrown(e)
    case Ok(b) =>
      match ResumeUrl(b)
      case Err(e) => Thrown(e)
      case Ok(url) =>
        if !TruthyField(url) then Response(400, Message(UrlRequired))
        else if !HasApiKey(apiKey) then Response(500, Message(MissingApiKey))
        else if !validUrl(url.value) then Response(400, Message(InvalidUrl))
        else
          match generate(url.value)
          case Err(e) => Thrown(e)
          case Ok(answer) =>
            match ParseParsedResume(answer)
            case Err(e) => Thrown(e)
            case Ok(resume) => Response(200, Parsed(true, resume))
  }

  /** The request succeeds iff every check passes and the model's answer
      validates, and then the data is exactly the validated answer. */
  lemma SucceedsIffChecksPass(
    body: Result<Json>, apiKey: Option<string>,
    validUrl: Json -> bool, generate: Json -> Result<Json>)
    ensures Post(body, apiKey, validUrl, generate).status == 200 <==>
      && body.Ok? && !body.value.Null?
      && TruthyField(ResumeUrl(body.value).value)
      && HasApiKey(apiKey)
      && validUrl(ResumeUrl(body.value).value.value)
      && generate(ResumeUrl(body.value).value.value).Ok?
      && ParseParsedResume(generate(ResumeUrl(body.value).value.value).value).Ok?
    ensures Post(body, apiKey, validUrl, generate).status == 200 ==>
      Post(body, apiKey, validUrl, generate).body.data ==
        ParseParsedResume(generate(ResumeUrl(body.value).value.value).value).value
  {
  }

  /** When a check fails, the model is never consulted: the response is the
      same whatever it would have answered. */
  lemma FailedCheckSkipsModel(
    body: Json, apiKey: Option<string>, validUrl: Json -> bool,
    generate: Json -> Result<Json>, other: Json -> Result<Json>)
    requires ResumeUrl(body).Ok?
    requires var url := ResumeUrl(body).value;
      !TruthyField(url) || !HasApiKey(apiKey) || !validUrl(url.value)
    ensures Post(Ok(body), apiKey, validUrl, generate) == Post(Ok(body), apiKey, validUrl, other)
    ensures Post(Ok(body), apiKey, validUrl, generate).status in {400, 500}
    ensures !Post(Ok(body), apiKey, validUrl, generate).body.Failure?
  {
  }

  /** A model or schema error reaches the client as the catch-all 500 with
      the error's message. */
  lemma ModelErrorIsCaught(
    body: Json, apiKey: Option<string>, validUrl: Json -> bool,
    generate: Json -> Result<Json>)
    requires ResumeUrl(body).Ok?
    requires var url := ResumeUrl(body).value;
      TruthyField(url) && HasApiKey(apiKey) && validUrl(url.value) && generate(url.value).Err?
    ensures Post(Ok(body), apiKey, validUrl, generate) ==
      Thrown(generate(ResumeUrl(body).value.value).error)
  {
  }
}
