/**
 * The profile management page: the profile creation form, the edit form
 * that sends only the fields the user changed, and the career and project
 * forms of the edit view. Widgets and HTTP calls are not modelled; the
 * request bodies are, together with what the service makes of them.
 */
module ProfilePage {
  import opened Wrappers
  import opened Text
  import opened Dates
  import opened ProfileModels
  import opened ProfileService
  import ProjectPage
  import CareerPage

  // ---------------------------------------------------------------- creation

  datatype CreateForm = CreateForm(name: string, email: string, phone: string, address: string, bio: string)

  const NameAndEmailRequired := "이름과 이메일은 필수 입력 항목입니다."

  /** `x if x else None` for a text input, as a JSON field. */
  function TextOrNull(input: string): Field<string>
  {
    FieldOf(EmptyToNone(input))
  }

  /** The creation body: refused without a name or an email; empty optional
      fields are sent as null. */
  function CreateBody(form: CreateForm): Result<RawProfile>
  {
    if form.name == "" || form.email == "" then Err(NameAndEmailRequired)
    else Ok(RawProfile(Given(form.name), TextOrNull(form.address), TextOrNull(form.phone),
                       Given(form.email), TextOrNull(form.bio)))
  }

  /** The page refuses exactly the forms without a name or an email; the
      service then accepts exactly a name of at most 100 characters and a
      phone of at most 20, and stores the form's name and email and each
      optional field, or none when it was left empty. */
  lemma CreateBodySpec(form: CreateForm, id: Uuid)
    ensures CreateBody(form).Err? <==> form.name == "" || form.email == ""
    ensures CreateBody(form).Ok? ==>
              var r := ValidateProfileCreate(CreateBody(form).value, id);
              && (r.Ok? <==> |form.name| <= MaxNameLength && |form.phone| <= MaxPhoneLength)
              && (r.Ok? ==>
                    && r.value.name == form.name && r.value.email == form.email
                    && r.value.phone == EmptyToNone(form.phone)
                    && r.value.address == EmptyToNone(form.address)
                    && r.value.bio == EmptyToNone(form.bio))
  {
  }

  // ---------------------------------------------------------------- editing

  /** The edit form. An optional text input opened on a null value holds
      None until something is typed. */
  datatype EditForm = EditForm(
    name: string, email: string, phone: Option<string>, address: Option<string>, bio: Option<string>)

  /** The form as it opens: the stored values. */
  function InitialEditForm(stored: Profile): EditForm
  {
    EditForm(stored.name, stored.email, stored.phone, stored.address, stored.bio)
  }

  /** The keys of `update_data`, one per editable field. */
  datatype FieldKey = NameKey | EmailKey | PhoneKey | AddressKey | BioKey

  const EditableFields: set<FieldKey> := {NameKey, EmailKey, PhoneKey, AddressKey, BioKey}

  /** `profile.get(key, '')`: the stored value the form compares against. */
  function OldValue(stored: Profile, key: FieldKey): Option<string>
  {
    match key
    case NameKey => Some(stored.name)
    case EmailKey => Some(stored.email)
    case PhoneKey => stored.phone
    case AddressKey => stored.address
    case BioKey => stored.bio
  }

  function FormValue(form: EditForm, key: FieldKey): Option<string>
  {
    match key
    case NameKey => Some(form.name)
    case EmailKey => Some(form.email)
    case PhoneKey => form.phone
    case AddressKey => form.address
    case BioKey => form.bio
  }

  /** What the diff holds for a changed field: the name and the email as
      typed, an optional field as typed or None when it is empty. */
  function SentValue(form: EditForm, key: FieldKey): Option<string>
  {
    if key == NameKey || key == EmailKey || Truthy(FormValue(form, key)) then FormValue(form, key) else None
  }

  /** `update_data`: exactly the fields whose value differs from the stored one. */
  function Diff(stored: Profile, form: EditForm): map<FieldKey, Option<string>>
  {
    map key | key in EditableFields && FormValue(form, key) != OldValue(stored, key) :: SentValue(form, key)
  }

  /** The order in which the page compares the fields. */
  const EditOrder: seq<FieldKey> := [NameKey, EmailKey, PhoneKey, AddressKey, BioKey]

  /** `render_profile_basic_edit` filling `update_data` field by field. */
  method EditDiff(stored: Profile, form: EditForm) returns (update: map<FieldKey, Option<string>>)
    ensures update == Diff(stored, form)
  {
    update := map[];
    for i := 0 to |EditOrder|
      invariant forall key :: key in update <==> key in EditOrder[..i] && FormValue(form, key) != OldValue(stored, key)
      invariant forall key :: key in update ==> update[key] == SentValue(form, key)
    {
      var key := EditOrder[i];
      if FormValue(form, key) != OldValue(stored, key) {
        update := update[key := SentValue(form, key)];
      }
    }
    assert EditOrder[..|EditOrder|] == EditOrder;
    forall key: FieldKey
      ensures key in EditableFields && key in EditOrder
    {
      match key
      case NameKey => assert EditOrder[0] == key;
      case EmailKey => assert EditOrder[1] == key;
      case PhoneKey => assert EditOrder[2] == key;
      case AddressKey => assert EditOrder[3] == key;
      case BioKey => assert EditOrder[4] == key;
    }
  }

  /** One field of the request body: left out when not in the diff, `null`
      for None. */
  function Entry(update: map<FieldKey, Option<string>>, key: FieldKey): Field<string>
  {
    if key in update then FieldOf(update[key]) else Absent
  }

  /** Submitting the form: no request at all for an empty diff, otherwise
      the diff as the update body. */
  function SubmitEdit(stored: Profile, form: EditForm): Option<RawProfile>
  {
    var update := Diff(stored, form);
    if update == map[] then None
    else Some(RawProfile(Entry(update, NameKey), Entry(update, AddressKey), Entry(update, PhoneKey),
                         Entry(update, EmailKey), Entry(update, BioKey)))
  }

  /** A request is sent exactly when the form differs from how it opened. */
  lemma NoRequestIffUnchanged(stored: Profile, form: EditForm)
    ensures SubmitEdit(stored, form).None? <==> form == InitialEditForm(stored)
  {
    var update := Diff(stored, form);
    if form != InitialEditForm(stored) {
      var key :| key in EditableFields && FormValue(form, key) != OldValue(stored, key) by {
        if form.name != stored.name {
          assert FormValue(form, NameKey) != OldValue(stored, NameKey);
        } else if form.email != stored.email {
          assert FormValue(form, EmailKey) != OldValue(stored, EmailKey);
        } else if form.phone != stored.phone {
          assert FormValue(form, PhoneKey) != OldValue(stored, PhoneKey);
        } else if form.address != stored.address {
          assert FormValue(form, AddressKey) != OldValue(stored, AddressKey);
        } else {
          assert FormValue(form, BioKey) != OldValue(stored, BioKey);
        }
      }
      assert key in update;
    } else {
      assert forall key :: key !in update;
    }
  }

  /** A sent update is accepted unless a changed name is longer than 100
      characters or a changed, non-empty phone longer than 20. Once stored,
      the name and the email are the form's, an optional field holds what
      was typed, and an optional field the user emptied keeps its old value:
      the empty field goes out as null, and the service skips nulls. */
  lemma EditOutcome(stored: Profile, form: EditForm)
    requires SubmitEdit(stored, form).Some?
    ensures var raw := SubmitEdit(stored, form).value;
            && (ValidateProfileUpdate(raw).Ok? <==>
                  && (form.name == stored.name || |form.name| <= MaxNameLength)
                  && (form.phone == stored.phone || !Truthy(form.phone) || |form.phone.value| <= MaxPhoneLength))
            && (ValidateProfileUpdate(raw).Ok? ==>
                  var updated := ApplyProfileUpdate(stored, ValidateProfileUpdate(raw).value);
                  && updated.id == stored.id
                  && updated.name == form.name && updated.email == form.email
                  && updated.phone == (if Truthy(form.phone) then form.phone else stored.phone)
                  && updated.address == (if Truthy(form.address) then form.address else stored.address)
                  && updated.bio == (if Truthy(form.bio) then form.bio else stored.bio))
  {
    var update := Diff(stored, form);
    assert NameKey in update <==> form.name != stored.name;
    assert EmailKey in update <==> form.email != stored.email;
    assert PhoneKey in update <==> form.phone != stored.phone;
    assert AddressKey in update <==> form.address != stored.address;
    assert BioKey in update <==> form.bio != stored.bio;
  }

  // ---------------------------------------------------------------- technologies

  /** The technology field of this page's project form: split at commas and
      every piece stripped, empty pieces included; an empty field gives none. */
  function TechList(input: string): seq<string>
  {
    if input == "" then [] else StripAll(Split(input, ','))
  }

  /** One entry per comma-separated piece, in order, each stripped, so a
      blank piece is kept as an empty technology; the project page's parser
      gives the same list with the empty entries dropped. */
  lemma TechListSpec(input: string)
    ensures input != "" ==> |TechList(input)| == CountChar(input, ',') + 1
    ensures input != "" ==>
              forall k :: 0 <= k < |TechList(input)| ==>
                TechList(input)[k] == Strip(Split(input, ',')[k])
                && (TechList(input)[k] == "" <==> IsBlank(Split(input, ',')[k]))
    ensures ProjectPage.ParseTechnologies(input) == DropEmpty(TechList(input))
  {
    SplitCount(input, ',');
    StripNonBlankIsDropEmpty(Split(input, ','));
    forall k | 0 <= k < |Split(input, ',')| {
      StripEmptyIffBlank(Split(input, ',')[k]);
    }
  }

  // ---------------------------------------------------------------- careers and projects

  /** The career form of the edit view: the start date is a full date
      (today by default), and the end date is asked for only when the job is
      not current, and may be left empty. */
  datatype CareerEntry = CareerEntry(
    companyName: string, position: string, startDate: Date, current: bool, endDate: Option<Date>,
    jobDescription: string)

  /** The body sent for a new career; `profileId` is the field the body
      carries for the profile. */
  function CareerBody(form: CareerEntry, profileId: Field<Uuid>): Result<RawCareer>
  {
    if form.companyName == "" then Err(CareerPage.CompanyRequired)
    else
      var end := if form.current then None else form.endDate;
      Ok(RawCareer(profileId, Given(form.companyName), Given(Iso(form.startDate)),
                   if end.Some? then Given(Iso(end.value)) else Null,
                   TextOrNull(form.jobDescription), TextOrNull(form.position)))
  }

  /** The body as the page builds it: without the profile id. */
  function CareerBodyAsWritten(form: CareerEntry): Result<RawCareer>
  {
    CareerBody(form, Absent)
  }

  /** The body with the profile id the career is for. */
  function CareerBodyFor(form: CareerEntry, profileId: Uuid): Result<RawCareer>
  {
    CareerBody(form, Given(profileId))
  }

  /** Every career the page sends is refused: the creation model requires a
      profile id, and the body has none. */
  lemma CareerCreateRejected(form: CareerEntry, id: Uuid)
    requires CareerBodyAsWritten(form).Ok?
    ensures ValidateCareerCreate(CareerBodyAsWritten(form).value, id) == Err("profile_id: field required")
  {
  }

  /** With the profile id in the body, a form with valid dates, a company
      name of at most 200 characters and a position of at most 100 is
      stored for that profile with the form's dates, no end date for a
      current job or an empty end field, and no position or job description
      when the field was empty. */
  lemma CareerCreateAccepted(form: CareerEntry, profileId: Uuid, id: Uuid)
    requires CareerBodyFor(form, profileId).Ok?
    requires ValidDate(form.startDate) && (form.endDate.Some? ==> ValidDate(form.endDate.value))
    requires |form.companyName| <= MaxCompanyNameLength && |form.position| <= MaxPositionLength
    ensures var r := ValidateCareerCreate(CareerBodyFor(form, profileId).value, id);
            && r.Ok?
            && r.value.profileId == profileId
            && r.value.companyName == form.companyName
            && r.value.startDate == form.startDate
            && r.value.endDate == (if form.current then None else form.endDate)
            && r.value.position == EmptyToNone(form.position)
            && r.value.jobDescription == EmptyToNone(form.jobDescription)
  {
    var raw := CareerBodyFor(form, profileId).value;
    CareerPage.CreateBodyAccepted(raw, id, form.startDate, if form.current then None else form.endDate);
  }

  /** The project form of the edit view: both dates optional. */
  datatype ProjectEntry = ProjectEntry(
    projectName: string, startDate: Option<Date>, endDate: Option<Date>, description: string, technologies: string)

  const ProjectNameRequired := "프로젝트명은 필수 입력 항목입니다."

  /** A date input as a JSON field: its ISO text, or null when left empty. */
  function DateOrNull(d: Option<Date>): Field<string>
  {
    if d.Some? then Given(Iso(d.value)) else Null
  }

  /** The body sent for a new project; `careerId` is the field the body
      carries for the career. */
  function ProjectBody(form: ProjectEntry, careerId: Field<Uuid>): Result<RawProject>
  {
    if form.projectName == "" then Err(ProjectNameRequired)
    else Ok(RawProject(careerId, Given(form.projectName), DateOrNull(form.startDate), DateOrNull(form.endDate),
                       TextOrNull(form.description), Given(TechList(form.technologies))))
  }

  /** The body as the page builds it: without the career id. */
  function ProjectBodyAsWritten(form: ProjectEntry): Result<RawProject>
  {
    ProjectBody(form, Absent)
  }

  /** The body with the career id the project is for. */
  function ProjectBodyFor(form: ProjectEntry, careerId: Uuid): Result<RawProject>
  {
    ProjectBody(form, Given(careerId))
  }

  /** Every project the page sends is refused: the creation model requires
      a career id, and the body has none. */
  lemma ProjectCreateRejected(form: ProjectEntry, id: Uuid)
    requires ProjectBodyAsWritten(form).Ok?
    ensures ValidateProjectCreate(ProjectBodyAsWritten(form).value, id) == Err("career_id: field required")
  {
  }

  /** With the career id in the body, a form with valid dates and a name of
      at most 200 characters is stored for that career with the form's
      dates and its technology list, empty entries included. */
  lemma ProjectCreateAccepted(form: ProjectEntry, careerId: Uuid, id: Uuid)
    requires ProjectBodyFor(form, careerId).Ok?
    requires form.startDate.Some? ==> ValidDate(form.startDate.value)
    requires form.endDate.Some? ==> ValidDate(form.endDate.value)
    requires |form.projectName| <= MaxProjectNameLength
    ensures var r := ValidateProjectCreate(ProjectBodyFor(form, careerId).value, id);
            && r.Ok?
            && r.value.careerId == careerId
            && r.value.projectName == form.projectName
            && r.value.startDate == form.startDate
            && r.value.endDate == form.endDate
            && r.value.description == EmptyToNone(form.description)
            && r.value.technologies == Some(TechList(form.technologies))
  {
    if form.startDate.Some? {
      IsoRoundTrip(form.startDate.value);
    }
    if form.endDate.Some? {
      IsoRoundTrip(form.endDate.value);
    }
  }
}
