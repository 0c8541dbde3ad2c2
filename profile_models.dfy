/**
 * Profile, career and project records and the field constraints request
 * validation applies to them: required and optional fields, maximum
 * lengths, dates, and the defaults of the list fields.
 */
module ProfileModels {
  import opened Wrappers
  import opened Dates
  import opened Text

  /** Record ids are opaque strings here (UUIDs in the store). */
  type Uuid = string

  datatype Profile = Profile(
    id: Uuid, name: string, address: Option<string>, phone: Option<string>, email: string, bio: Option<string>)

  /** A null end date means the person still works there. */
  datatype Career = Career(
    id: Uuid, profileId: Uuid, companyName: string, startDate: Date, endDate: Option<Date>,
    jobDescription: Option<string>, position: Option<string>)

  datatype Project = Project(
    id: Uuid, careerId: Uuid, projectName: string, startDate: Option<Date>, endDate: Option<Date>,
    description: Option<string>, technologies: Option<seq<string>>)

  /** Partial updates: every field optional, None meaning "not given". */
  datatype ProfileUpdate = ProfileUpdate(
    name: Option<string>, address: Option<string>, phone: Option<string>, email: Option<string>, bio: Option<string>)

  datatype CareerUpdate = CareerUpdate(
    companyName: Option<string>, startDate: Option<Date>, endDate: Option<Date>,
    jobDescription: Option<string>, position: Option<string>)

  datatype ProjectUpdate = ProjectUpdate(
    projectName: Option<string>, startDate: Option<Date>, endDate: Option<Date>,
    description: Option<string>, technologies: Option<seq<string>>)

  datatype CareerWithProjects = CareerWithProjects(career: Career, projects: seq<Project>)

  datatype ProfileWithDetails = ProfileWithDetails(profile: Profile, careers: seq<CareerWithProjects>)

  /** `CareerWithProjects(...)` without projects: the list defaults to []. */
  function WithoutProjects(c: Career): (r: CareerWithProjects)
    ensures r.career == c && r.projects == []
  {
    CareerWithProjects(c, [])
  }

  /** `ProfileWithDetails(...)` without careers: the list defaults to []. */
  function WithoutCareers(p: Profile): (r: ProfileWithDetails)
    ensures r.profile == p && r.careers == []
  {
    ProfileWithDetails(p, [])
  }

  const MaxNameLength: int := 100
  const MaxPhoneLength: int := 20
  const MaxCompanyNameLength: int := 200
  const MaxPositionLength: int := 100
  const MaxProjectNameLength: int := 200

  predicate WithinLength(o: Option<string>, max: int) {
    o.None? || |o.value| <= max
  }

  predicate ValidProfile(p: Profile) {
    |p.name| <= MaxNameLength && WithinLength(p.phone, MaxPhoneLength)
  }

  /** No constraint relates the end date to the start date. */
  predicate ValidCareer(c: Career) {
    && |c.companyName| <= MaxCompanyNameLength
    && WithinLength(c.position, MaxPositionLength)
    && ValidDate(c.startDate)
    && (c.endDate.Some? ==> ValidDate(c.endDate.value))
  }

  predicate ValidProject(p: Project) {
    && |p.projectName| <= MaxProjectNameLength
    && (p.startDate.Some? ==> ValidDate(p.startDate.value))
    && (p.endDate.Some? ==> ValidDate(p.endDate.value))
  }

  /** An optional text field with a maximum length. */
  function OptionalText(f: Field<string>, max: int, name: string): (r: Result<Option<string>>)
    ensures r.Ok? <==> !(f.Given? && |f.value| > max)
    ensures r.Ok? ==> r.value == OptionalField(f)
  {
    if f.Given? && |f.value| > max then Err(name + ": too long") else Ok(OptionalField(f))
  }

  /** An optional date field, sent as "YYYY-MM-DD". */
  function OptionalDate(f: Field<string>, name: string): (r: Result<Option<Date>>)
    ensures r.Ok? <==> !f.Given? || ParseIso(f.value).Some?
    ensures r.Ok? && f.Given? ==> r.value == ParseIso(f.value)
    ensures r.Ok? && !f.Given? ==> r.value == None
  {
    if !f.Given? then Ok(None)
    else if ParseIso(f.value).Some? then Ok(ParseIso(f.value))
    else Err(name + ": invalid date")
  }

  /** The body of a profile creation. */
  datatype RawProfile = RawProfile(
    name: Field<string>, address: Field<string>, phone: Field<string>, email: Field<string>, bio: Field<string>)

  /** `ProfileCreate` validation: name (at most 100 characters) and email are
      required, phone has at most 20 characters, the rest are optional. */
  function ValidateProfileCreate(raw: RawProfile, id: Uuid): (r: Result<Profile>)
    ensures r.Ok? <==>
              && raw.name.Given? && |raw.name.value| <= MaxNameLength
              && raw.email.Given?
              && !(raw.phone.Given? && |raw.phone.value| > MaxPhoneLength)
    ensures r.Ok? ==> ValidProfile(r.value) && r.value.id == id
    ensures r.Ok? ==>
              && r.value.name == raw.name.value && r.value.email == raw.email.value
              && r.value.phone == OptionalField(raw.phone)
              && r.value.address == OptionalField(raw.address)
              && r.value.bio == OptionalField(raw.bio)
  {
    if !raw.name.Given? then Err("name: field required")
    else if |raw.name.value| > MaxNameLength then Err("name: too long")
    else if !raw.email.Given? then Err("email: field required")
    else
      match OptionalText(raw.phone, MaxPhoneLength, "phone")
      case Err(e) => Err(e)
      case Ok(phone) =>
        Ok(Profile(id, raw.name.value, OptionalField(raw.address), phone, raw.email.value, OptionalField(raw.bio)))
  }

  /** `ProfileUpdate` validation: every field may be left out. */
  function ValidateProfileUpdate(raw: RawProfile): (r: Result<ProfileUpdate>)
    ensures r.Ok? <==>
              !(raw.name.Given? && |raw.name.value| > MaxNameLength)
              && !(raw.phone.Given? && |raw.phone.value| > MaxPhoneLength)
    ensures r.Ok? ==>
              r.value == ProfileUpdate(OptionalField(raw.name), OptionalField(raw.address), OptionalField(raw.phone),
                                       OptionalField(raw.email), OptionalField(raw.bio))
  {
    match OptionalText(raw.name, MaxNameLength, "name")
    case Err(e) => Err(e)
    case Ok(name) =>
      match OptionalText(raw.phone, MaxPhoneLength, "phone")
      case Err(e) => Err(e)
      case Ok(phone) =>
        Ok(ProfileUpdate(name, OptionalField(raw.address), phone, OptionalField(raw.email), OptionalField(raw.bio)))
  }

  /** The body of a career creation or update. */
  datatype RawCareer = RawCareer(
    profileId: Field<Uuid>, companyName: Field<string>, startDate: Field<string>, endDate: Field<string>,
    jobDescription: Field<string>, position: Field<string>)

  /** `CareerCreate` validation: profile id, company name (at most 200
      characters) and start date are required; position has at most 100
      characters; dates must be calendar dates. */
  function ValidateCareerCreate(raw: RawCareer, id: Uuid): (r: Result<Career>)
    ensures r.Ok? <==>
              && raw.profileId.Given?
              && raw.companyName.Given? && |raw.companyName.value| <= MaxCompanyNameLength
              && raw.startDate.Given? && ParseIso(raw.startDate.value).Some?
              && (raw.endDate.Given? ==> ParseIso(raw.endDate.value).Some?)
              && !(raw.position.Given? && |raw.position.value| > MaxPositionLength)
    ensures r.Ok? ==> ValidCareer(r.value) && r.value.id == id && r.value.profileId == raw.profileId.value
    ensures r.Ok? ==> (r.value.endDate.None? <==> !raw.endDate.Given?)
    ensures r.Ok? ==>
              && r.value.companyName == raw.companyName.value
              && Some(r.value.startDate) == ParseIso(raw.startDate.value)
              && (raw.endDate.Given? ==> r.value.endDate == ParseIso(raw.endDate.value))
              && r.value.position == OptionalField(raw.position)
              && r.value.jobDescription == OptionalField(raw.jobDescription)
  {
    if !raw.profileId.Given? then Err("profile_id: field required")
    else if !raw.companyName.Given? then Err("company_name: field required")
    else if |raw.companyName.value| > MaxCompanyNameLength then Err("company_name: too long")
    else if !raw.startDate.Given? then Err("start_date: field required")
    else if ParseIso(raw.startDate.value).None? then Err("start_date: invalid date")
    else
      match OptionalDate(raw.endDate, "end_date")
      case Err(e) => Err(e)
      case Ok(endDate) =>
        match OptionalText(raw.position, MaxPositionLength, "position")
        case Err(e) => Err(e)
        case Ok(position) =>
          Ok(Career(id, raw.profileId.value, raw.companyName.value, ParseIso(raw.startDate.value).value, endDate,
                    OptionalField(raw.jobDescription), position))
  }

  /** `CareerUpdate` validation: every field may be left out. */
  function ValidateCareerUpdate(raw: RawCareer): (r: Result<CareerUpdate>)
    ensures r.Ok? <==>
              && !(raw.companyName.Given? && |raw.companyName.value| > MaxCompanyNameLength)
              && (raw.startDate.Given? ==> ParseIso(raw.startDate.value).Some?)
              && (raw.endDate.Given? ==> ParseIso(raw.endDate.value).Some?)
              && !(raw.position.Given? && |raw.position.value| > MaxPositionLength)
    ensures r.Ok? ==>
              && r.value.companyName == OptionalField(raw.companyName)
              && r.value.position == OptionalField(raw.position)
              && r.value.jobDescription == OptionalField(raw.jobDescription)
              && (raw.startDate.Given? ==> r.value.startDate == ParseIso(raw.startDate.value))
              && (!raw.startDate.Given? ==> r.value.startDate.None?)
              && (raw.endDate.Given? ==> r.value.endDate == ParseIso(raw.endDate.value))
              && (!raw.endDate.Given? ==> r.value.endDate.None?)
  {
    match OptionalText(raw.companyName, MaxCompanyNameLength, "company_name")
    case Err(e) => Err(e)
    case Ok(companyName) =>
      match OptionalDate(raw.startDate, "start_date")
      case Err(e) => Err(e)
      case Ok(startDate) =>
        match OptionalDate(raw.endDate, "end_date")
        case Err(e) => Err(e)
        case Ok(endDate) =>
          match OptionalText(raw.position, MaxPositionLength, "position")
          case Err(e) => Err(e)
          case Ok(position) =>
            Ok(CareerUpdate(companyName, startDate, endDate, OptionalField(raw.jobDescription), position))
  }

  /** The body of a project creation or update. */
  datatype RawProject = RawProject(
    careerId: Field<Uuid>, projectName: Field<string>, startDate: Field<string>, endDate: Field<string>,
    description: Field<string>, technologies: Field<seq<string>>)

  /** `ProjectCreate` validation: career id and project name (at most 200
      characters) are required; both dates are optional; a left-out
      technology list defaults to [] while an explicit null stays null. */
  function ValidateProjectCreate(raw: RawProject, id: Uuid): (r: Result<Project>)
    ensures r.Ok? <==>
              && raw.careerId.Given?
              && raw.projectName.Given? && |raw.projectName.value| <= MaxProjectNameLength
              && (raw.startDate.Given? ==> ParseIso(raw.startDate.value).Some?)
              && (raw.endDate.Given? ==> ParseIso(raw.endDate.value).Some?)
    ensures r.Ok? ==> ValidProject(r.value) && r.value.id == id && r.value.careerId == raw.careerId.value
    ensures r.Ok? && raw.technologies.Absent? ==> r.value.technologies == Some([])
    ensures r.Ok? && raw.technologies.Null? ==> r.value.technologies == None
    ensures r.Ok? && raw.technologies.Given? ==> r.value.technologies == Some(raw.technologies.value)
    ensures r.Ok? ==>
              && r.value.projectName == raw.projectName.value
              && r.value.description == OptionalField(raw.description)
              && (r.value.startDate.Some? <==> raw.startDate.Given?)
              && (raw.startDate.Given? ==> r.value.startDate == ParseIso(raw.startDate.value))
              && (r.value.endDate.Some? <==> raw.endDate.Given?)
              && (raw.endDate.Given? ==> r.value.endDate == ParseIso(raw.endDate.value))
  {
    if !raw.careerId.Given? then Err("career_id: field required")
    else if !raw.projectName.Given? then Err("project_name: field required")
    else if |raw.projectName.value| > MaxProjectNameLength then Err("project_name: too long")
    else
      match OptionalDate(raw.startDate, "start_date")
      case Err(e) => Err(e)
      case Ok(startDate) =>
        match OptionalDate(raw.endDate, "end_date")
        case Err(e) => Err(e)
        case Ok(endDate) =>
          var technologies := if raw.technologies.Absent? then Some([]) else OptionalField(raw.technologies);
          Ok(Project(id, raw.careerId.value, raw.projectName.value, startDate, endDate,
                     OptionalField(raw.description), technologies))
  }

  /** `ProjectUpdate` validation: every field may be left out, and a
      left-out technology list stays None (it is not reset to []). */
  function ValidateProjectUpdate(raw: RawProject): (r: Result<ProjectUpdate>)
    ensures r.Ok? <==>
              && !(raw.projectName.Given? && |raw.projectName.value| > MaxProjectNameLength)
              && (raw.startDate.Given? ==> ParseIso(raw.startDate.value).Some?)
              && (raw.endDate.Given? ==> ParseIso(raw.endDate.value).Some?)
    ensures r.Ok? ==>
              && r.value.projectName == OptionalField(raw.projectName)
              && r.value.description == OptionalField(raw.description)
              && r.value.technologies == OptionalField(raw.technologies)
              && (raw.startDate.Given? ==> r.value.startDate == ParseIso(raw.startDate.value))
              && (!raw.startDate.Given? ==> r.value.startDate.None?)
              && (raw.endDate.Given? ==> r.value.endDate == ParseIso(raw.endDate.value))
              && (!raw.endDate.Given? ==> r.value.endDate.None?)
  {
    match OptionalText(raw.projectName, MaxProjectNameLength, "project_name")
    case Err(e) => Err(e)
    case Ok(projectName) =>
      match OptionalDate(raw.startDate, "start_date")
      case Err(e) => Err(e)
      case Ok(startDate) =>
        match OptionalDate(raw.endDate, "end_date")
        case Err(e) => Err(e)
        case Ok(endDate) =>
          Ok(ProjectUpdate(projectName, startDate, endDate, OptionalField(raw.description), OptionalField(raw.technologies)))
  }

  /** A body with every field left out is a valid update that changes
      nothing, for all three record kinds. */
  lemma EmptyUpdatesValid()
    ensures ValidateProfileUpdate(RawProfile(Absent, Absent, Absent, Absent, Absent))
            == Ok(ProfileUpdate(None, None, None, None, None))
    ensures ValidateCareerUpdate(RawCareer(Absent, Absent, Absent, Absent, Absent, Absent))
            == Ok(CareerUpdate(None, None, None, None, None))
    ensures ValidateProjectUpdate(RawProject(Absent, Absent, Absent, Absent, Absent, Absent))
            == Ok(ProjectUpdate(None, None, None, None, None))
  {
  }

  /** Nothing ties the end date to the start date: a career that ends
      before it starts is accepted. */
  lemma CareerEndMayPrecedeStart()
    ensures var r := ValidateCareerCreate(
              RawCareer(Given("p"), Given("Acme"), Given("2024-05-01"), Given("2020-01-01"), Absent, Absent), "c");
            r.Ok? && Before(r.value.endDate.value, r.value.startDate)
  {
    IsoExample(2024, 5, 1, "2024-05-01");
    IsoExample(2020, 1, 1, "2020-01-01");
  }

  lemma IsoExample(y: nat, m: nat, d: nat, s: string)
    requires ValidDate(Date(y, m, d)) && 1000 <= y && 10 <= m + 9 && m < 10 && d < 10
    requires s == NatToString(y) + "-0" + NatToString(m) + "-0" + NatToString(d)
    ensures ParseIso(s) == Some(Date(y, m, d))
  {
    var dt := Date(y, m, d);
    assert Pow10(4) == 10000 && Pow10(3) == 1000 && Pow10(2) == 100 && Pow10(1) == 10;
    NatToStringLength(y, 4);
    NatToStringLongEnough(y, 3);
    NatToStringLength(m, 1);
    NatToStringLength(d, 1);
    assert PadNat(y, 4) == NatToString(y);
    assert PadNat(m, 2) == "0" + NatToString(m);
    assert PadNat(d, 2) == "0" + NatToString(d);
    assert s == Iso(dt);
    IsoRoundTrip(dt);
  }
}
