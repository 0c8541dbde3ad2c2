/**
 * The pure logic of the project management page: turning the create and
 * edit forms into request bodies (technology list, first-of-month dates,
 * the start/end order check), the form the edit page opens with, and the
 * months-and-days duration shown for each project. The widgets and the
 * HTTP calls are not modelled; today's date is a parameter.
 */
module ProjectPage {
  import opened Wrappers
  import opened Text
  import opened Dates
  import opened ProfileModels
  import opened ProfileService

  // ---------------------------------------------------------------- technologies

  /** The technology field: split at commas, each piece stripped, blank
      pieces dropped; an empty field gives no technologies. */
  function ParseTechnologies(input: string): seq<string>
  {
    if input == "" then [] else SplitStripNonBlank(input, ',')
  }

  /** The technologies are the stripped comma-separated pieces in input
      order with the empty ones dropped; each is a non-empty word without
      surrounding whitespace or commas, and every piece with some
      non-whitespace character is among them. */
  lemma ParseTechnologiesSpec(input: string)
    ensures ParseTechnologies(input) == DropEmpty(StripAll(Split(input, ',')))
    ensures forall k :: 0 <= k < |ParseTechnologies(input)| ==>
              IsStrippedWord(ParseTechnologies(input)[k]) && ',' !in ParseTechnologies(input)[k]
    ensures forall m :: 0 <= m < |Split(input, ',')| && !IsBlank(Split(input, ',')[m]) ==>
              Strip(Split(input, ',')[m]) in ParseTechnologies(input)
  {
    StripNonBlankIsDropEmpty(Split(input, ','));
    SplitStripNonBlankSpec(input, ',');
    StripNonBlankKeeps(Split(input, ','));
  }

  /** What the edit form shows in the technology field: the stored list
      joined with ", ", or nothing when the list is null or empty. */
  function TechPrefill(stored: Option<seq<string>>): string
  {
    if stored.Some? && stored.value != [] then Join(stored.value, ", ") else ""
  }

  /** Technologies a form can produce: stripped words without commas. */
  predicate TechWords(techs: seq<string>) {
    forall k :: 0 <= k < |techs| ==> IsStrippedWord(techs[k]) && ',' !in techs[k]
  }

  /** Reading back the prefilled field gives the stored list (an empty list
      for null) whenever its items could have come from the form. */
  lemma TechPrefillRoundTrip(stored: Option<seq<string>>)
    requires stored.Some? ==> TechWords(stored.value)
    ensures ParseTechnologies(TechPrefill(stored)) == stored.GetOr([])
  {
    if stored.Some? && stored.value != [] {
      JoinedTechsParse(stored.value);
    }
  }

  lemma {:induction false} JoinedTechsParse(techs: seq<string>)
    requires techs != [] && TechWords(techs)
    ensures Join(techs, ", ") != "" && SplitStripNonBlank(Join(techs, ", "), ',') == techs
    decreases |techs|
  {
    var t := techs[0];
    StrippedWordFixed(t);
    if |techs| == 1 {
      SplitWithoutSep(t, ',');
      assert StripNonBlank([t]) == [Strip(t)] + StripNonBlank([t][1..]);
    } else {
      var rest := techs[1..];
      JoinedTechsParse(rest);
      var j := Join(rest, ", ");
      assert Join(techs, ", ") == t + [','] + ([' '] + j);
      SplitAtFirst(t, ',', [' '] + j);
      var ps := Split(j, ',');
      assert ([' '] + j)[1..] == j;
      var spaced := [[' '] + ps[0]] + ps[1..];
      assert Split([' '] + j, ',') == spaced;
      StripAfterSpace(' ', ps[0]);
      assert StripNonBlank(spaced) == StripNonBlank(ps) by {
        assert spaced[1..] == ps[1..];
      }
      assert ([t] + spaced)[1..] == spaced;
    }
  }

  // ---------------------------------------------------------------- the form

  /** The create/edit form: dates are picked as a year and a month. The
      description box holds None when the edit page prefilled it with a
      stored null and it was left untouched; the create page's box always
      holds text. */
  datatype ProjectForm = ProjectForm(
    name: string, startYear: nat, startMonth: nat, ongoing: bool, endYear: nat, endMonth: nat,
    description: Option<string>, techInput: string)

  /** The ranges the year and month inputs allow. */
  predicate InputRange(year: nat, month: nat) {
    1980 <= year <= 2030 && 1 <= month <= 12
  }

  predicate ValidForm(form: ProjectForm) {
    InputRange(form.startYear, form.startMonth) && InputRange(form.endYear, form.endMonth)
  }

  const NameRequired := "프로젝트명은 필수 입력사항입니다."
  const StartAfterEnd := "시작년월이 종료년월보다 늦을 수 없습니다."
  /** The exception `None.strip()` raises; nothing catches it on the page. */
  const DescriptionNone := "AttributeError: 'NoneType' object has no attribute 'strip'"

  function StartDate(form: ProjectForm): Date { FirstOfMonth(form.startYear, form.startMonth) }
  function EndDate(form: ProjectForm): Date { FirstOfMonth(form.endYear, form.endMonth) }

  /** The checks and the request body shared by create and edit; the create
      body also names the career. Building the body strips the description,
      which raises when the box holds None. */
  function Payload(form: ProjectForm, careerId: Field<Uuid>): (r: Result<RawProject>)
  {
    if Strip(form.name) == "" then Err(NameRequired)
    else if !form.ongoing && Before(EndDate(form), StartDate(form)) then Err(StartAfterEnd)
    else if form.description.None? then Err(DescriptionNone)
    else
      var description := Strip(form.description.value);
      Ok(RawProject(
        careerId,
        Given(Strip(form.name)),
        Given(Iso(StartDate(form))),
        if form.ongoing then Absent else Given(Iso(EndDate(form))),
        if description == "" then Null else Given(description),
        Given(ParseTechnologies(form.techInput))))
  }

  /** The body of a project creation. */
  function CreatePayload(form: ProjectForm, careerId: Uuid): Result<RawProject>
  {
    Payload(form, Given(careerId))
  }

  /** The body of a project update. */
  function EditPayload(form: ProjectForm): Result<RawProject>
  {
    Payload(form, Absent)
  }

  /** A blank name is refused first, then a start month after the end month
      unless the project is ongoing, then an untouched null description
      raises; otherwise the body always has a start date, an end date only
      when not ongoing, and the name stripped. */
  lemma PayloadSpec(form: ProjectForm, careerId: Field<Uuid>)
    ensures Payload(form, careerId) == Err(NameRequired) <==> IsBlank(form.name)
    ensures Payload(form, careerId) == Err(StartAfterEnd) <==>
              && !IsBlank(form.name) && !form.ongoing
              && (form.endYear < form.startYear || (form.endYear == form.startYear && form.endMonth < form.startMonth))
    ensures Payload(form, careerId) == Err(DescriptionNone) <==>
              && !IsBlank(form.name) && form.description.None?
              && (form.ongoing || !(form.endYear < form.startYear || (form.endYear == form.startYear && form.endMonth < form.startMonth)))
    ensures Payload(form, careerId).Ok? ==>
              var raw := Payload(form, careerId).value;
              && raw.careerId == careerId
              && raw.startDate == Given(Iso(StartDate(form)))
              && (raw.endDate.Given? <==> !form.ongoing)
              && IsStrippedWord(raw.projectName.value)
  {
    StripEmptyIffBlank(form.name);
    FirstOfMonthOrder(form.startYear, form.startMonth, form.endYear, form.endMonth);
    StripIdempotent(form.name);
  }

  /** A body the page sends for a valid form and a name of at most 200
      characters is accepted, and the stored project has the form's first-of-
      month start date, no end date exactly when ongoing, the parsed
      technologies, and the stripped description, or none when it was blank. */
  lemma CreateAccepted(form: ProjectForm, careerId: Uuid, id: Uuid)
    requires ValidForm(form) && CreatePayload(form, careerId).Ok?
    requires |Strip(form.name)| <= MaxProjectNameLength
    ensures var r := ValidateProjectCreate(CreatePayload(form, careerId).value, id);
            && r.Ok?
            && r.value.careerId == careerId
            && r.value.projectName == Strip(form.name)
            && r.value.startDate == Some(StartDate(form))
            && (r.value.endDate.None? <==> form.ongoing)
            && (!form.ongoing ==> r.value.endDate == Some(EndDate(form)))
            && r.value.technologies == Some(ParseTechnologies(form.techInput))
            && (r.value.description.None? <==> IsBlank(form.description.value))
            && (r.value.description.Some? ==> r.value.description.value == Strip(form.description.value))
  {
    var raw := CreatePayload(form, careerId).value;
    FirstOfMonthRoundTrip(form.startYear, form.startMonth);
    FirstOfMonthRoundTrip(form.endYear, form.endMonth);
    CreateBodyAccepted(raw, id, StartDate(form), if form.ongoing then None else Some(EndDate(form)));
    StripEmptyIffBlank(form.description.value);
  }

  /** A creation body naming the career, with a name of at most 200
      characters and dates rendered from valid dates, is stored with exactly
      those dates. */
  lemma CreateBodyAccepted(raw: RawProject, id: Uuid, start: Date, end: Option<Date>)
    requires raw.careerId.Given? && raw.projectName.Given? && |raw.projectName.value| <= MaxProjectNameLength
    requires ValidDate(start) && raw.startDate == Given(Iso(start))
    requires raw.endDate.Given? <==> end.Some?
    requires end.Some? ==> ValidDate(end.value) && raw.endDate == Given(Iso(end.value))
    ensures var r := ValidateProjectCreate(raw, id);
            && r.Ok? && r.value.startDate == Some(start) && r.value.endDate == end
  {
    IsoRoundTrip(start);
    if end.Some? {
      IsoRoundTrip(end.value);
    }
  }

  /** Ticking "ongoing" on the edit page leaves out the end date, and the
      service keeps the columns a body leaves out or nulls: the stored end
      date survives, and so does a description the form blanked. */
  lemma OngoingEditKeepsEndDate(stored: Project, form: ProjectForm)
    requires EditPayload(form).Ok? && ValidateProjectUpdate(EditPayload(form).value).Ok?
    ensures var updated := ApplyProjectUpdate(stored, ValidateProjectUpdate(EditPayload(form).value).value);
            && (form.ongoing ==> updated.endDate == stored.endDate)
            && (Strip(form.description.value) == "" ==> updated.description == stored.description)
  {
  }

  // ---------------------------------------------------------------- the edit form

  /** The form the edit page opens with: the stored values, with this month
      for a missing date, "ongoing" ticked exactly when there is no end date,
      and the stored description as it is, None for a null one. */
  function InitialEditForm(stored: Project, today: Date): (form: ProjectForm)
    ensures form.ongoing <==> stored.endDate.None?
    ensures form.description.None? <==> stored.description.None?
  {
    var start := stored.startDate.GetOr(today);
    var end := stored.endDate.GetOr(today);
    ProjectForm(stored.projectName, start.year, start.month, stored.endDate.None?, end.year, end.month,
                stored.description, TechPrefill(stored.technologies))
  }

  /** The edit form as evidently intended: a null description is shown as an
      empty box, as `get('description') or ''` would give. */
  function CorrectedInitialEditForm(stored: Project, today: Date): (form: ProjectForm)
    ensures form.ongoing <==> stored.endDate.None?
    ensures form.description.Some?
    ensures stored.description.Some? ==> form == InitialEditForm(stored, today)
  {
    var start := stored.startDate.GetOr(today);
    var end := stored.endDate.GetOr(today);
    ProjectForm(stored.projectName, start.year, start.month, stored.endDate.None?, end.year, end.month,
                Some(stored.description.GetOr("")), TechPrefill(stored.technologies))
  }

  /** Dates the form can show unchanged: the first of a month in the input range. */
  predicate FormDate(d: Date) {
    d.day == 1 && InputRange(d.year, d.month)
  }

  /** What a stored project must satisfy to have come from the form: a
      stripped name and description, form dates in order, and technologies
      the form can produce. */
  predicate FormShaped(stored: Project) {
    && IsStrippedWord(stored.projectName) && |stored.projectName| <= MaxProjectNameLength
    && stored.startDate.Some? && FormDate(stored.startDate.value)
    && (stored.endDate.Some? ==> FormDate(stored.endDate.value) && !Before(stored.endDate.value, stored.startDate.value))
    && (stored.description.Some? ==> IsStrippedWord(stored.description.value))
    && stored.technologies.Some? && TechWords(stored.technologies.value)
  }

  /** Submitting the corrected edit form unchanged rewrites the project as it
      was, whether or not it has a description. */
  lemma CorrectedUnchangedEditKeepsProject(stored: Project, today: Date)
    requires FormShaped(stored)
    ensures var raw := EditPayload(CorrectedInitialEditForm(stored, today));
            && raw.Ok? && ValidateProjectUpdate(raw.value).Ok?
            && ApplyProjectUpdate(stored, ValidateProjectUpdate(raw.value).value) == stored
  {
    var form := CorrectedInitialEditForm(stored, today);
    StrippedWordFixed(stored.projectName);
    StripEmptyIffBlank(stored.projectName);
    if stored.description.Some? {
      StrippedWordFixed(stored.description.value);
    }
    assert Strip("") == "";
    assert StartDate(form) == stored.startDate.value;
    IsoRoundTrip(stored.startDate.value);
    if stored.endDate.Some? {
      assert EndDate(form) == stored.endDate.value;
      IsoRoundTrip(stored.endDate.value);
    }
    TechPrefillRoundTrip(stored.technologies);
  }

  /** Submitting the edit form as written unchanged rewrites the project as
      it was when it has a description, and sends nothing when it has none:
      stripping the untouched null description raises. */
  lemma UnchangedEditKeepsProject(stored: Project, today: Date)
    requires FormShaped(stored)
    ensures var raw := EditPayload(InitialEditForm(stored, today));
            && (raw.Ok? <==> stored.description.Some?)
            && (raw.Err? ==> raw == Err(DescriptionNone))
            && (raw.Ok? ==> ValidateProjectUpdate(raw.value).Ok?
                            && ApplyProjectUpdate(stored, ValidateProjectUpdate(raw.value).value) == stored)
  {
    CorrectedUnchangedEditKeepsProject(stored, today);
    if stored.description.None? {
      var form := InitialEditForm(stored, today);
      StrippedWordFixed(stored.projectName);
      assert StartDate(form) == stored.startDate.value;
      if stored.endDate.Some? {
        assert EndDate(form) == stored.endDate.value;
      }
    }
  }

  /** The discrepancy: a named, undated, ongoing project with no description
      cannot be saved from the edit page as written, while the corrected
      form sends it. */
  lemma NullDescriptionEditFails(stored: Project, today: Date)
    requires !IsBlank(stored.projectName) && stored.endDate.None? && stored.description.None?
    ensures EditPayload(InitialEditForm(stored, today)) == Err(DescriptionNone)
    ensures EditPayload(CorrectedInitialEditForm(stored, today)).Ok?
  {
    StripEmptyIffBlank(stored.projectName);
  }

  /** Editing a project that has no start date and submitting the form
      unchanged gives it this month's first day as its start date, provided
      it has a description; without one nothing is sent. */
  lemma UndatedEditGetsStartDate(stored: Project, today: Date)
    requires stored.startDate.None? && stored.endDate.None? && !IsBlank(stored.projectName)
    requires |Strip(stored.projectName)| <= MaxProjectNameLength && InputRange(today.year, today.month)
    ensures var raw := EditPayload(InitialEditForm(stored, today));
            && (raw.Ok? <==> stored.description.Some?)
            && (raw.Ok? ==> ValidateProjectUpdate(raw.value).Ok?
                            && ApplyProjectUpdate(stored, ValidateProjectUpdate(raw.value).value).startDate
                               == Some(FirstOfMonth(today.year, today.month)))
  {
    var form := InitialEditForm(stored, today);
    StripEmptyIffBlank(stored.projectName);
    FirstOfMonthRoundTrip(today.year, today.month);
    assert StartDate(form) == FirstOfMonth(today.year, today.month);
    if stored.description.Some? {
      var raw := EditPayload(form).value;
      assert raw.startDate == Given(Iso(StartDate(form)));
      assert raw.endDate.Absent?;
      assert ParseIso(raw.startDate.value) == Some(StartDate(form));
    }
  }

  // ---------------------------------------------------------------- duration

  /** The duration shown for a project: whole 30-day months and the days left. */
  function MonthsAndDays(days: int): (r: (int, int))
    ensures r.0 * 30 + r.1 == days && 0 <= r.1 < 30
    ensures r.0 >= 0 <==> days >= 0
  {
    (days / 30, days % 30)
  }
}
