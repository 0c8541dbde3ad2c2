/**
 * The pure logic of the career management page: turning the create and
 * edit forms into request bodies (first-of-month dates, the company name
 * and start/end checks, the end date left out for a current job), the form
 * the edit page opens with, and the years-and-months duration shown for
 * each career. Widgets and HTTP calls are not modelled; today's date is a
 * parameter.
 */
module CareerPage {
  import opened Wrappers
  import opened Text
  import opened Dates
  import opened ProfileModels
  import opened ProfileService
  import ProjectPage

  // ---------------------------------------------------------------- the form

  /** The create/edit form: dates are picked as a year and a month, and the
      end month is only shown when "currently employed" is unticked. */
  datatype CareerForm = CareerForm(
    companyName: string, position: string, startYear: nat, startMonth: nat,
    current: bool, endYear: nat, endMonth: nat, jobDescription: string)

  /** Both month pickers hold values their number inputs allow. */
  predicate ValidForm(form: CareerForm) {
    ProjectPage.InputRange(form.startYear, form.startMonth) && ProjectPage.InputRange(form.endYear, form.endMonth)
  }

  const CompanyRequired := "회사명은 필수 입력 항목입니다."
  const StartAfterEnd := "입사년월이 퇴사년월보다 늦을 수 없습니다."

  function StartDate(form: CareerForm): Date { FirstOfMonth(form.startYear, form.startMonth) }

  /** No end date for a current job. */
  function EndDate(form: CareerForm): Option<Date>
  {
    if form.current then None else Some(FirstOfMonth(form.endYear, form.endMonth))
  }

  /** The checks and the request body shared by create and edit; the create
      body also names the profile. The company name is not stripped. */
  function Payload(form: CareerForm, profileId: Field<Uuid>): (r: Result<RawCareer>)
  {
    if form.companyName == "" then Err(CompanyRequired)
    else if EndDate(form).Some? && Before(EndDate(form).value, StartDate(form)) then Err(StartAfterEnd)
    else
      Ok(RawCareer(
        profileId,
        Given(form.companyName),
        Given(Iso(StartDate(form))),
        if EndDate(form).Some? then Given(Iso(EndDate(form).value)) else Null,
        FieldOf(EmptyToNone(form.jobDescription)),
        FieldOf(EmptyToNone(form.position))))
  }

  /** The body of a career creation. */
  function CreatePayload(form: CareerForm, profileId: Uuid): Result<RawCareer>
  {
    Payload(form, Given(profileId))
  }

  /** The body of a career update. */
  function EditPayload(form: CareerForm): Result<RawCareer>
  {
    Payload(form, Absent)
  }

  /** An empty company name is refused first, then a start month after the
      end month unless the job is current; otherwise the end date is sent as
      null exactly for a current job, and an empty position or job
      description is sent as null. */
  lemma PayloadSpec(form: CareerForm, profileId: Field<Uuid>)
    ensures Payload(form, profileId) == Err(CompanyRequired) <==> form.companyName == ""
    ensures Payload(form, profileId) == Err(StartAfterEnd) <==>
              && form.companyName != "" && !form.current
              && (form.endYear < form.startYear || (form.endYear == form.startYear && form.endMonth < form.startMonth))
    ensures Payload(form, profileId).Ok? ==>
              var raw := Payload(form, profileId).value;
              && raw.profileId == profileId
              && raw.companyName == Given(form.companyName)
              && raw.startDate == Given(Iso(StartDate(form)))
              && (raw.endDate.Null? <==> form.current)
              && (raw.position.Null? <==> form.position == "")
              && (raw.jobDescription.Null? <==> form.jobDescription == "")
  {
    FirstOfMonthOrder(form.startYear, form.startMonth, form.endYear, form.endMonth);
  }

  /** A creation body naming the profile, with a company name of at most 200
      characters, a position of at most 100 and dates rendered from valid
      dates, is stored with exactly those dates. */
  lemma CreateBodyAccepted(raw: RawCareer, id: Uuid, start: Date, end: Option<Date>)
    requires raw.profileId.Given? && raw.companyName.Given? && |raw.companyName.value| <= MaxCompanyNameLength
    requires !(raw.position.Given? && |raw.position.value| > MaxPositionLength)
    requires ValidDate(start) && raw.startDate == Given(Iso(start))
    requires raw.endDate.Given? <==> end.Some?
    requires end.Some? ==> ValidDate(end.value) && raw.endDate == Given(Iso(end.value))
    ensures var r := ValidateCareerCreate(raw, id);
            && r.Ok? && r.value.startDate == start && r.value.endDate == end
  {
    IsoRoundTrip(start);
    if end.Some? {
      IsoRoundTrip(end.value);
    }
  }

  /** A body the page sends for a valid form, a company name of at most 200
      characters and a position of at most 100 is accepted, and the stored
      career has the form's first-of-month dates in order, no end date
      exactly when current, and no position or job description exactly when
      the field was empty. */
  lemma CreateAccepted(form: CareerForm, profileId: Uuid, id: Uuid)
    requires ValidForm(form) && CreatePayload(form, profileId).Ok?
    requires |form.companyName| <= MaxCompanyNameLength && |form.position| <= MaxPositionLength
    ensures var r := ValidateCareerCreate(CreatePayload(form, profileId).value, id);
            && r.Ok?
            && r.value.profileId == profileId
            && r.value.companyName == form.companyName
            && r.value.startDate == StartDate(form)
            && r.value.endDate == EndDate(form)
            && (r.value.endDate.Some? ==> !Before(r.value.endDate.value, r.value.startDate))
            && r.value.position == EmptyToNone(form.position)
            && r.value.jobDescription == EmptyToNone(form.jobDescription)
  {
    var raw := CreatePayload(form, profileId).value;
    FirstOfMonthRoundTrip(form.startYear, form.startMonth);
    FirstOfMonthRoundTrip(form.endYear, form.endMonth);
    CreateBodyAccepted(raw, id, StartDate(form), EndDate(form));
  }

  /** Ticking "currently employed" on the edit page sends a null end date,
      and the service ignores nulls: a career that has ended cannot be made
      current again, and an emptied position or job description survives. */
  lemma CurrentEditKeepsEndDate(stored: Career, form: CareerForm)
    requires EditPayload(form).Ok? && ValidateCareerUpdate(EditPayload(form).value).Ok?
    ensures var updated := ApplyCareerUpdate(stored, ValidateCareerUpdate(EditPayload(form).value).value);
            && (form.current ==> updated.endDate == stored.endDate)
            && (form.position == "" ==> updated.position == stored.position)
            && (form.jobDescription == "" ==> updated.jobDescription == stored.jobDescription)
  {
  }

  // ---------------------------------------------------------------- the edit form

  /** The form the edit page opens with: the stored values, this month for a
      missing end date, and "currently employed" ticked exactly when there is
      no end date. */
  function InitialEditForm(stored: Career, today: Date): (form: CareerForm)
    ensures form.current <==> stored.endDate.None?
  {
    var end := stored.endDate.GetOr(today);
    CareerForm(stored.companyName, stored.position.GetOr(""), stored.startDate.year, stored.startDate.month,
               stored.endDate.None?, end.year, end.month, stored.jobDescription.GetOr(""))
  }

  /** Submitting the edit form unchanged rewrites the career as it was,
      provided everything stored could have come from the form. */
  lemma UnchangedEditKeepsCareer(stored: Career, today: Date)
    requires stored.companyName != "" && |stored.companyName| <= MaxCompanyNameLength
    requires stored.position.Some? ==> stored.position.value != "" && |stored.position.value| <= MaxPositionLength
    requires stored.jobDescription.Some? ==> stored.jobDescription.value != ""
    requires ProjectPage.FormDate(stored.startDate)
    requires stored.endDate.Some? ==> ProjectPage.FormDate(stored.endDate.value) && !Before(stored.endDate.value, stored.startDate)
    ensures var raw := EditPayload(InitialEditForm(stored, today));
            && raw.Ok? && ValidateCareerUpdate(raw.value).Ok?
            && ApplyCareerUpdate(stored, ValidateCareerUpdate(raw.value).value) == stored
  {
    var form := InitialEditForm(stored, today);
    assert StartDate(form) == stored.startDate;
    IsoRoundTrip(stored.startDate);
    if stored.endDate.Some? {
      assert EndDate(form) == stored.endDate;
      IsoRoundTrip(stored.endDate.value);
    }
  }

  // ---------------------------------------------------------------- duration

  /** The duration shown for a career: whole 365-day years, then whole
      30-day months of what is left, which is never more than 12. */
  function YearsAndMonths(days: int): (r: (int, int))
    ensures 0 <= r.1 <= 12
    ensures r.0 * 365 + r.1 * 30 <= days < r.0 * 365 + r.1 * 30 + 30
    ensures r.0 >= 0 <==> days >= 0
  {
    (days / 365, (days % 365) / 30)
  }
}
