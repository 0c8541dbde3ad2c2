/**
 * The four profile tools the agent can call. Each turns what the store
 * returned into a numbered Korean text block, with placeholder text for
 * missing fields; a missing record gives a "not found" text and a failed
 * lookup gives an error text, so no tool ever raises. Store lookups are
 * inputs: a `Result` whose error is the text of the exception (a malformed
 * profile id fails the same way, when `UUID(profile_id)` raises).
 */
module ProfileTools {
  import opened Wrappers
  import opened Text
  import opened Dates
  import opened StableSort
  import opened ProfileModels

  const Unknown: string := "정보 없음"
  const NoBio: string := "자기소개 없음"

  function NotFoundText(profileId: string): string
  {
    "프로필 ID " + profileId + "에 해당하는 정보를 찾을 수 없습니다."
  }

  // ---------------------------------------------------------------- lines shared by the tools

  /** `f"{i}. {name}\n"`. */
  function NumberedLine(i: nat, name: string): string
  {
    NatToString(i) + ". " + name + "\n"
  }

  /** `f"{caption}{value}\n"`. */
  function FieldLine(caption: string, value: string): string
  {
    caption + value + "\n"
  }

  /** A line written only when its field is neither None nor empty. */
  function OptionalLine(caption: string, o: Option<string>): string
  {
    if Truthy(o) then FieldLine(caption, o.value) else ""
  }

  /** `f"{caption}{start}"` followed by `f" ~ {end}\n"` or `" ~ 현재\n"`;
      `f"{caption}정보 없음\n"` when there is no start date. */
  function PeriodLine(caption: string, start: Option<Date>, end: Option<Date>): string
  {
    if start.None? then FieldLine(caption, Unknown)
    else if end.Some? then caption + Iso(start.value) + " ~ " + Iso(end.value) + "\n"
    else caption + Iso(start.value) + " ~ 현재\n"
  }

  /** `f"{caption}{', '.join(technologies)}\n"` when the list is neither None nor empty. */
  function TechLine(caption: string, techs: Option<seq<string>>): string
  {
    if techs.Some? && techs.value != [] then FieldLine(caption, Join(techs.value, ", ")) else ""
  }

  /** `f"{noun} ({n}개):"`, the title over a counted list. */
  function CountTitle(noun: string, n: nat): string
  {
    noun + " (" + NatToString(n) + "개):"
  }

  method AppendPeriod(result: string, caption: string, start: Option<Date>, end: Option<Date>) returns (out: string)
    ensures out == result + PeriodLine(caption, start, end)
  {
    if start.Some? {
      var line := caption + Iso(start.value);
      if end.Some? {
        line := line + " ~ " + Iso(end.value) + "\n";
      } else {
        line := line + " ~ 현재\n";
      }
      out := result + line;
    } else {
      out := result + FieldLine(caption, Unknown);
    }
  }

  method AppendOptional(result: string, caption: string, o: Option<string>) returns (out: string)
    ensures out == result + OptionalLine(caption, o)
  {
    out := result;
    if Truthy(o) {
      out := out + FieldLine(caption, o.value);
    }
  }

  method AppendTechnologies(result: string, caption: string, techs: Option<seq<string>>) returns (out: string)
    ensures out == result + TechLine(caption, techs)
  {
    out := result;
    if techs.Some? && techs.value != [] {
      out := out + FieldLine(caption, Join(techs.value, ", "));
    }
  }

  /** A counted title, followed by anything, is still at the front after
      `strip()`: the title starts with a non-blank noun and ends with ':'. */
  lemma CountTitleSurvivesStrip(noun: string, n: nat, rest: string)
    requires noun != [] && !IsSpace(noun[0])
    ensures StartsWith(Strip(CountTitle(noun, n) + rest), CountTitle(noun, n))
  {
    var head := CountTitle(noun, n);
    assert head[0] == noun[0];
    assert head[|head| - 1] == ':';
    assert (head + rest)[..|head|] == head;
    StripKeepsPrefix(head + rest, head);
  }

  // ---------------------------------------------------------------- get_profile_info

  function ProfileInfoText(p: Profile): string
  {
    "프로필 정보:\n이름: " + p.name
    + "\n이메일: " + p.email
    + "\n전화번호: " + StrOr(p.phone, Unknown)
    + "\n주소: " + StrOr(p.address, Unknown)
    + "\n자기소개: " + StrOr(p.bio, NoBio)
  }

  /** `get_profile_info`. */
  function GetProfileInfo(profileId: string, lookup: Result<Option<Profile>>): (text: string)
    ensures lookup.Err? ==> text == "프로필 조회 중 오류가 발생했습니다: " + lookup.error
    ensures lookup == Ok(None) ==> text == NotFoundText(profileId)
    ensures lookup.Ok? && lookup.value.Some? ==> text == ProfileInfoText(lookup.value.value)
  {
    match lookup
    case Err(e) => "프로필 조회 중 오류가 발생했습니다: " + e
    case Ok(None) => NotFoundText(profileId)
    case Ok(Some(p)) => ProfileInfoText(p)
  }

  /** A missing or empty phone, address or bio renders exactly as if it
      held the placeholder text; a present one renders as itself. */
  lemma ProfileInfoPlaceholders(p: Profile)
    ensures !Truthy(p.phone) ==> ProfileInfoText(p) == ProfileInfoText(p.(phone := Some(Unknown)))
    ensures !Truthy(p.address) ==> ProfileInfoText(p) == ProfileInfoText(p.(address := Some(Unknown)))
    ensures !Truthy(p.bio) ==> ProfileInfoText(p) == ProfileInfoText(p.(bio := Some(NoBio)))
    ensures Truthy(p.phone) && Truthy(p.address) && Truthy(p.bio) ==>
              ProfileInfoText(p) == "프로필 정보:\n이름: " + p.name + "\n이메일: " + p.email
                                    + "\n전화번호: " + p.phone.value + "\n주소: " + p.address.value
                                    + "\n자기소개: " + p.bio.value
  {
  }

  // ---------------------------------------------------------------- get_careers_by_profile

  const CareerFetchErrorPrefix: string := "경력사항 조회 중 오류가 발생했습니다: "

  function NoCareersText(profileId: string): string
  {
    "프로필 ID " + profileId + "에 해당하는 경력사항을 찾을 수 없습니다."
  }

  /** The lines under a career's title. */
  function CareerDetails(c: Career): string
  {
    FieldLine("   직책: ", StrOr(c.position, Unknown))
    + PeriodLine("   근무기간: ", Some(c.startDate), c.endDate)
    + OptionalLine("   업무내용: ", c.jobDescription)
    + "\n"
  }

  /** The block for the `i`-th career (counting from 1). */
  function CareerEntry(i: nat, c: Career): string
  {
    NumberedLine(i, c.companyName) + CareerDetails(c)
  }

  /** The header and the blocks, before stripping. */
  function CareersBody(cs: seq<Career>): string
  {
    CountTitle("경력사항", |cs|) + "\n\n" + Enumerate(cs, CareerEntry)
  }

  function CareersText(profileId: string, fetched: Result<seq<Career>>): string
  {
    match fetched
    case Err(e) => CareerFetchErrorPrefix + e
    case Ok(cs) => if cs == [] then NoCareersText(profileId) else Strip(CareersBody(cs))
  }

  /** One pass of the careers loop: the block for career `i`, appended. */
  method AppendCareer(result: string, i: nat, career: Career) returns (out: string)
    ensures out == result + CareerEntry(i, career)
  {
    var details := FieldLine("   직책: ", StrOr(career.position, Unknown));
    details := AppendPeriod(details, "   근무기간: ", Some(career.startDate), career.endDate);
    details := AppendOptional(details, "   업무내용: ", career.jobDescription);
    details := details + "\n";
    out := result + (NumberedLine(i, career.companyName) + details);
  }

  /** The loop appending one block per career. */
  method AppendCareers(result: string, careers: seq<Career>) returns (out: string)
    ensures out == result + Enumerate(careers, CareerEntry)
  {
    out := result;
    for i := 0 to |careers|
      invariant out == result + Enumerate(careers[..i], CareerEntry)
    {
      EnumerateSnoc(careers, i, CareerEntry);
      var next := AppendCareer(out, i + 1, careers[i]);
      AppendAssoc(result, Enumerate(careers[..i], CareerEntry), CareerEntry(i + 1, careers[i]));
      out := next;
    }
    assert careers[..|careers|] == careers;
  }

  /** `get_careers_by_profile`. */
  method GetCareersByProfile(profileId: string, fetched: Result<seq<Career>>) returns (text: string)
    ensures text == CareersText(profileId, fetched)
  {
    if fetched.Err? {
      return CareerFetchErrorPrefix + fetched.error;
    }
    if fetched.value == [] {
      return NoCareersText(profileId);
    }
    var result := CountTitle("경력사항", |fetched.value|) + "\n\n";
    result := AppendCareers(result, fetched.value);
    text := Strip(result);
  }

  /** A non-empty list opens with a title counting its careers; an empty
      one gives the "no careers" text instead, whose first character differs
      from that title's; a failed lookup gives the error text. */
  lemma CareersTextSpec(profileId: string, fetched: Result<seq<Career>>)
    ensures fetched.Ok? && fetched.value != [] ==>
              StartsWith(CareersText(profileId, fetched), CountTitle("경력사항", |fetched.value|))
    ensures fetched == Ok([]) ==>
              CareersText(profileId, fetched) == NoCareersText(profileId)
              && CareersText(profileId, fetched)[0] != CountTitle("경력사항", 0)[0]
    ensures fetched.Err? ==> CareersText(profileId, fetched) == CareerFetchErrorPrefix + fetched.error
  {
    if fetched.Ok? && fetched.value != [] {
      var cs := fetched.value;
      AppendAssoc(CountTitle("경력사항", |cs|), "\n\n", Enumerate(cs, CareerEntry));
      CountTitleSurvivesStrip("경력사항", |cs|, "\n\n" + Enumerate(cs, CareerEntry));
    }
  }

  /** The block of career `k + 1` opens with its number and company, right
      after the blocks of the careers before it: the list reads 1, 2, ..., n
      in input order. */
  lemma CareerEntriesNumbered(cs: seq<Career>, k: nat)
    requires k < |cs|
    ensures Enumerate(cs[..k], CareerEntry) + NumberedLine(k + 1, cs[k].companyName) <= Enumerate(cs, CareerEntry)
  {
    var before := Enumerate(cs[..k], CareerEntry);
    var line := NumberedLine(k + 1, cs[k].companyName);
    EnumerateAt(cs, k, CareerEntry);
    assert CareerEntry(k + 1, cs[k]) == line + CareerDetails(cs[k]);
    AppendAssoc(before, line, CareerDetails(cs[k]));
    assert before + line <= (before + line) + CareerDetails(cs[k]);
  }

  // ---------------------------------------------------------------- get_projects_by_profile

  const ProjectFetchErrorPrefix: string := "프로젝트 조회 중 오류가 발생했습니다: "

  function NoCareersForProjectsText(profileId: string): string
  {
    "프로필 ID " + profileId + "에 해당하는 경력사항을 찾을 수 없어 프로젝트를 조회할 수 없습니다."
  }

  function NoProjectsText(profileId: string): string
  {
    "프로필 ID " + profileId + "에 해당하는 프로젝트를 찾을 수 없습니다."
  }

  /** A project tagged with the company of the career it belongs to. */
  datatype ProjectInfo = ProjectInfo(project: Project, company: string)

  /** The sort key: the start date, with 1900-01-01 for a project without one. */
  function StartKey(pi: ProjectInfo): Date
  {
    pi.project.startDate.GetOr(Jan1st1900)
  }

  /** The projects the store returns for a career; none when it has no entry. */
  function FetchProjects(fetch: map<Uuid, Result<seq<Project>>>, careerId: Uuid): Result<seq<Project>>
  {
    if careerId in fetch then fetch[careerId] else Ok([])
  }

  function Tagged(ps: seq<Project>, company: string): (r: seq<ProjectInfo>)
    ensures |r| == |ps|
    ensures forall k :: 0 <= k < |ps| ==> r[k] == ProjectInfo(ps[k], company)
  {
    seq(|ps|, k requires 0 <= k < |ps| => ProjectInfo(ps[k], company))
  }

  /** All projects, career by career, each tagged with its career's company;
      the first failing lookup ends the walk with its error. */
  function Flattened(cs: seq<Career>, fetch: map<Uuid, Result<seq<Project>>>): Result<seq<ProjectInfo>>
  {
    if cs == [] then Ok([])
    else
      var c := cs[|cs| - 1];
      match Flattened(cs[..|cs| - 1], fetch)
      case Err(e) => Err(e)
      case Ok(xs) =>
        match FetchProjects(fetch, c.id)
        case Err(e) => Err(e)
        case Ok(ps) => Ok(xs + Tagged(ps, c.companyName))
  }

  /** The nested loop collecting `all_projects`. */
  method FlattenProjects(cs: seq<Career>, fetch: map<Uuid, Result<seq<Project>>>) returns (r: Result<seq<ProjectInfo>>)
    ensures r == Flattened(cs, fetch)
  {
    var all: seq<ProjectInfo> := [];
    for i := 0 to |cs|
      invariant Flattened(cs[..i], fetch) == Ok(all)
    {
      var career := cs[i];
      assert cs[..i + 1][..i] == cs[..i];
      var projects := FetchProjects(fetch, career.id);
      if projects.Err? {
        FlattenedStopsAtError(cs, fetch, i + 1);
        return Err(projects.error);
      }
      for j := 0 to |projects.value|
        invariant all == Flattened(cs[..i], fetch).value + Tagged(projects.value[..j], career.companyName)
      {
        all := all + [ProjectInfo(projects.value[j], career.companyName)];
      }
      assert projects.value[..|projects.value|] == projects.value;
    }
    assert cs[..|cs|] == cs;
    r := Ok(all);
  }

  /** Once a lookup failed, later careers do not change the outcome. */
  lemma {:induction false} FlattenedStopsAtError(cs: seq<Career>, fetch: map<Uuid, Result<seq<Project>>>, i: nat)
    requires i <= |cs| && Flattened(cs[..i], fetch).Err?
    ensures Flattened(cs, fetch) == Flattened(cs[..i], fetch)
    decreases |cs| - i
  {
    if i < |cs| {
      assert cs[..i + 1][..i] == cs[..i];
      FlattenedStopsAtError(cs, fetch, i + 1);
    } else {
      assert cs[..i] == cs;
    }
  }

  /** Every collected project was returned for one of the careers and is
      tagged with that career's company; there are exactly as many as the
      lookups returned. */
  lemma {:induction false} FlattenedSpec(cs: seq<Career>, fetch: map<Uuid, Result<seq<Project>>>)
    requires Flattened(cs, fetch).Ok?
    ensures forall k :: 0 <= k < |Flattened(cs, fetch).value| ==>
              exists c :: c in cs && FetchProjects(fetch, c.id).Ok?
                          && Flattened(cs, fetch).value[k].company == c.companyName
                          && Flattened(cs, fetch).value[k].project in FetchProjects(fetch, c.id).value
    ensures |Flattened(cs, fetch).value| == TotalProjects(cs, fetch)
  {
    if cs != [] {
      var prefix := cs[..|cs| - 1];
      var c := cs[|cs| - 1];
      FlattenedSpec(prefix, fetch);
      var xs := Flattened(prefix, fetch).value;
      var ps := FetchProjects(fetch, c.id).value;
      var all := Flattened(cs, fetch).value;
      assert all == xs + Tagged(ps, c.companyName);
      forall k | 0 <= k < |all|
        ensures exists c' :: c' in cs && FetchProjects(fetch, c'.id).Ok?
                             && all[k].company == c'.companyName && all[k].project in FetchProjects(fetch, c'.id).value
      {
        if k < |xs| {
          var c' :| c' in prefix && FetchProjects(fetch, c'.id).Ok?
                    && xs[k].company == c'.companyName && xs[k].project in FetchProjects(fetch, c'.id).value;
          assert c' in cs;
        } else {
          assert all[k] == ProjectInfo(ps[k - |xs|], c.companyName);
          assert c in cs;
        }
      }
    }
  }

  /** How many projects the lookups return for the careers (failures count none). */
  function TotalProjects(cs: seq<Career>, fetch: map<Uuid, Result<seq<Project>>>): nat
  {
    if cs == [] then 0
    else
      var ps := FetchProjects(fetch, cs[|cs| - 1].id);
      TotalProjects(cs[..|cs| - 1], fetch) + (if ps.Ok? then |ps.value| else 0)
  }

  /** `all_projects.sort(key=..., reverse=True)`. */
  function SortProjects(xs: seq<ProjectInfo>): seq<ProjectInfo>
  {
    SortDesc(xs, StartKey)
  }

  /** The sort puts later start dates first, keeps every project exactly
      once, and keeps projects with equal keys in collection order. */
  lemma SortProjectsSpec(xs: seq<ProjectInfo>)
    ensures SortedDesc(SortProjects(xs), StartKey)
    ensures multiset(SortProjects(xs)) == multiset(xs)
    ensures forall k :: WithKey(SortProjects(xs), StartKey, k) == WithKey(xs, StartKey, k)
  {
    SortDescSpec(xs, StartKey);
    forall k ensures WithKey(SortProjects(xs), StartKey, k) == WithKey(xs, StartKey, k) {
      SortDescStable(xs, StartKey, k);
    }
  }

  /** An undated project comes after every project that started after
      1900-01-01. */
  lemma UndatedAfterLaterDated(xs: seq<ProjectInfo>, i: nat, j: nat)
    requires i < |SortProjects(xs)| && j < |SortProjects(xs)|
    requires SortProjects(xs)[i].project.startDate.None?
    requires SortProjects(xs)[j].project.startDate.Some?
    requires Before(Jan1st1900, SortProjects(xs)[j].project.startDate.value)
    ensures j < i
  {
    SortDescSpec(xs, StartKey);
  }

  /** ... but not after one that started on 1899-12-31: the stand-in key
      1900-01-01 is later, so the undated project is listed first. */
  lemma UndatedBeforeEarlierDated(a: ProjectInfo, b: ProjectInfo)
    requires a.project.startDate == Some(Date(1899, 12, 31)) && b.project.startDate.None?
    ensures SortProjects([a, b]) == [b, a]
  {
    assert [a, b][1..] == [b];
    assert [b][1..] == [];
    assert SortDesc([b], StartKey) == [b];
    assert StartKey(b) == Jan1st1900;
    assert Before(StartKey(a), StartKey(b));
    assert InsertDesc(a, [b], StartKey) == [b] + InsertDesc(a, [], StartKey);
  }

  /** The lines under a project's title in the project list. */
  function ProjectDetails(pi: ProjectInfo): string
  {
    FieldLine("   회사: ", pi.company)
    + PeriodLine("   기간: ", pi.project.startDate, pi.project.endDate)
    + OptionalLine("   설명: ", pi.project.description)
    + TechLine("   사용기술: ", pi.project.technologies)
    + "\n"
  }

  /** The block for the `i`-th project of the sorted list. */
  function ProjectEntry(i: nat, pi: ProjectInfo): string
  {
    NumberedLine(i, pi.project.projectName) + ProjectDetails(pi)
  }

  /** The header and the blocks of the sorted projects, before stripping. */
  function ProjectsBody(sorted: seq<ProjectInfo>): string
  {
    CountTitle("프로젝트", |sorted|) + "\n\n" + Enumerate(sorted, ProjectEntry)
  }

  function ProjectsText(profileId: string, careers: Result<seq<Career>>, fetch: map<Uuid, Result<seq<Project>>>): string
  {
    match careers
    case Err(e) => ProjectFetchErrorPrefix + e
    case Ok(cs) =>
      if cs == [] then NoCareersForProjectsText(profileId)
      else
        match Flattened(cs, fetch)
        case Err(e) => ProjectFetchErrorPrefix + e
        case Ok(all) =>
          if all == [] then NoProjectsText(profileId) else Strip(ProjectsBody(SortProjects(all)))
  }

  /** One pass of the listing loop: the block for project `i`, appended. */
  method AppendProject(result: string, i: nat, info: ProjectInfo) returns (out: string)
    ensures out == result + ProjectEntry(i, info)
  {
    var project := info.project;
    var details := FieldLine("   회사: ", info.company);
    details := AppendPeriod(details, "   기간: ", project.startDate, project.endDate);
    details := AppendOptional(details, "   설명: ", project.description);
    details := AppendTechnologies(details, "   사용기술: ", project.technologies);
    details := details + "\n";
    out := result + (NumberedLine(i, project.projectName) + details);
  }

  method AppendProjects(result: string, projects: seq<ProjectInfo>) returns (out: string)
    ensures out == result + Enumerate(projects, ProjectEntry)
  {
    out := result;
    for i := 0 to |projects|
      invariant out == result + Enumerate(projects[..i], ProjectEntry)
    {
      EnumerateSnoc(projects, i, ProjectEntry);
      var next := AppendProject(out, i + 1, projects[i]);
      AppendAssoc(result, Enumerate(projects[..i], ProjectEntry), ProjectEntry(i + 1, projects[i]));
      out := next;
    }
    assert projects[..|projects|] == projects;
  }

  /** `get_projects_by_profile`. */
  method GetProjectsByProfile(profileId: string, careers: Result<seq<Career>>, fetch: map<Uuid, Result<seq<Project>>>)
    returns (text: string)
    ensures text == ProjectsText(profileId, careers, fetch)
  {
    if careers.Err? {
      return ProjectFetchErrorPrefix + careers.error;
    }
    if careers.value == [] {
      return NoCareersForProjectsText(profileId);
    }
    var collected := FlattenProjects(careers.value, fetch);
    if collected.Err? {
      return ProjectFetchErrorPrefix + collected.error;
    }
    if collected.value == [] {
      return NoProjectsText(profileId);
    }
    var all := SortProjects(collected.value);
    var result := CountTitle("프로젝트", |all|) + "\n\n";
    result := AppendProjects(result, all);
    text := Strip(result);
  }

  /** When projects were found, the text opens with a title counting every
      project the lookups returned. */
  lemma ProjectsTextCount(profileId: string, cs: seq<Career>, fetch: map<Uuid, Result<seq<Project>>>)
    requires cs != [] && Flattened(cs, fetch).Ok? && Flattened(cs, fetch).value != []
    ensures StartsWith(ProjectsText(profileId, Ok(cs), fetch), CountTitle("프로젝트", TotalProjects(cs, fetch)))
  {
    var all := Flattened(cs, fetch).value;
    FlattenedSpec(cs, fetch);
    SortDescSpec(all, StartKey);
    var sorted := SortProjects(all);
    var rest := Enumerate(sorted, ProjectEntry);
    assert ProjectsText(profileId, Ok(cs), fetch) == Strip(ProjectsBody(sorted));
    AppendAssoc(CountTitle("프로젝트", |sorted|), "\n\n", rest);
    CountTitleSurvivesStrip("프로젝트", |sorted|, "\n\n" + rest);
  }

  /** The list opens with the block of a project whose start key is the
      latest of all. */
  lemma ProjectsFirstIsLatest(all: seq<ProjectInfo>)
    requires all != []
    ensures var sorted := SortProjects(all);
            sorted != [] && ProjectEntry(1, sorted[0]) <= Enumerate(sorted, ProjectEntry)
            && forall k :: 0 <= k < |sorted| ==> !Before(StartKey(sorted[0]), StartKey(sorted[k]))
  {
    SortDescSpec(all, StartKey);
    var sorted := SortProjects(all);
    EnumerateAt(sorted, 0, ProjectEntry);
    assert sorted[..0] == [];
    BeforeIsStrictTotalOrder(StartKey(sorted[0]), StartKey(sorted[0]), StartKey(sorted[0]));
  }

  /** The block of the `k + 1`-th project of the sorted list opens with its
      number and name, right after the blocks before it. */
  lemma ProjectEntriesNumbered(sorted: seq<ProjectInfo>, k: nat)
    requires k < |sorted|
    ensures Enumerate(sorted[..k], ProjectEntry) + NumberedLine(k + 1, sorted[k].project.projectName)
            <= Enumerate(sorted, ProjectEntry)
  {
    var before := Enumerate(sorted[..k], ProjectEntry);
    var line := NumberedLine(k + 1, sorted[k].project.projectName);
    EnumerateAt(sorted, k, ProjectEntry);
    assert ProjectEntry(k + 1, sorted[k]) == line + ProjectDetails(sorted[k]);
    AppendAssoc(before, line, ProjectDetails(sorted[k]));
    assert before + line <= (before + line) + ProjectDetails(sorted[k]);
  }

  // ---------------------------------------------------------------- get_profile_with_full_details

  const DetailsErrorPrefix: string := "상세 프로필 조회 중 오류가 발생했습니다: "
  const NoCareersLine: string := "등록된 경력사항이 없습니다.\n"

  function DetailsHeader(p: Profile): string
  {
    "=== " + p.name + "님의 상세 프로필 ===\n\n기본 정보:\n이름: " + p.name
    + "\n이메일: " + p.email
    + "\n전화번호: " + StrOr(p.phone, Unknown)
    + "\n주소: " + StrOr(p.address, Unknown)
    + "\n자기소개: " + StrOr(p.bio, NoBio)
    + "\n\n"
  }

  /** The "i-j" label of project `j` of career `i`. */
  function ProjectLabel(i: nat, j: nat): string
  {
    NatToString(i) + "-" + NatToString(j)
  }

  /** The lines of project `j` of career `i`. */
  function DetailProjectEntry(i: nat, j: nat, p: Project): string
  {
    "   " + ProjectLabel(i, j) + ". " + p.projectName + "\n"
    + PeriodLine("        기간: ", p.startDate, p.endDate)
    + OptionalLine("        설명: ", p.description)
    + TechLine("        기술: ", p.technologies)
  }

  /** The project lines of career `i`, as a function of the project's position. */
  function ProjectsOfCareer(i: nat): (nat, Project) -> string
  {
    (j: nat, p: Project) => DetailProjectEntry(i, j, p)
  }

  /** The "projects" part of career `i`: nothing when it has none. */
  function DetailProjects(i: nat, ps: seq<Project>): string
  {
    if ps == [] then "" else CountTitle("프로젝트", |ps|) + "\n" + Enumerate(ps, ProjectsOfCareer(i))
  }

  function DetailCareerEntry(i: nat, cp: CareerWithProjects): string
  {
    var c := cp.career;
    "\n" + NatToString(i) + ". " + c.companyName + " - " + StrOr(c.position, Unknown) + "\n"
    + PeriodLine("   기간: ", Some(c.startDate), c.endDate)
    + OptionalLine("   업무: ", c.jobDescription)
    + DetailProjects(i, cp.projects)
  }

  function DetailCareers(cps: seq<CareerWithProjects>): string
  {
    if cps == [] then NoCareersLine else CountTitle("경력사항", |cps|) + "\n" + Enumerate(cps, DetailCareerEntry)
  }

  function FullDetailsText(profileId: string, fetched: Result<Option<ProfileWithDetails>>): string
  {
    match fetched
    case Err(e) => DetailsErrorPrefix + e
    case Ok(None) => NotFoundText(profileId)
    case Ok(Some(d)) => DetailsHeader(d.profile) + DetailCareers(d.careers)
  }

  /** One pass of the inner loop: project `j` of career `i`, appended. */
  method AppendDetailProject(result: string, i: nat, j: nat, project: Project) returns (out: string)
    ensures out == result + DetailProjectEntry(i, j, project)
  {
    var lines := "   " + NatToString(i) + "-" + NatToString(j) + ". " + project.projectName + "\n";
    assert lines == "   " + ProjectLabel(i, j) + ". " + project.projectName + "\n";
    lines := AppendPeriod(lines, "        기간: ", project.startDate, project.endDate);
    lines := AppendOptional(lines, "        설명: ", project.description);
    lines := AppendTechnologies(lines, "        기술: ", project.technologies);
    out := result + lines;
  }

  /** The inner loop over the projects of career `i`. */
  method AppendDetailProjects(result: string, i: nat, ps: seq<Project>) returns (out: string)
    ensures out == result + Enumerate(ps, ProjectsOfCareer(i))
  {
    var entry := ProjectsOfCareer(i);
    out := result;
    for j := 0 to |ps|
      invariant out == result + Enumerate(ps[..j], entry)
    {
      EnumerateSnoc(ps, j, entry);
      var next := AppendDetailProject(out, i, j + 1, ps[j]);
      assert entry(j + 1, ps[j]) == DetailProjectEntry(i, j + 1, ps[j]);
      AppendAssoc(result, Enumerate(ps[..j], entry), entry(j + 1, ps[j]));
      out := next;
    }
    assert ps[..|ps|] == ps;
  }

  /** One pass of the outer loop: career `i` and its projects, appended. */
  method AppendDetailCareer(result: string, i: nat, cp: CareerWithProjects) returns (out: string)
    ensures out == result + DetailCareerEntry(i, cp)
  {
    var career := cp.career;
    var lines := "\n" + NatToString(i) + ". " + career.companyName + " - " + StrOr(career.position, Unknown) + "\n";
    lines := AppendPeriod(lines, "   기간: ", Some(career.startDate), career.endDate);
    lines := AppendOptional(lines, "   업무: ", career.jobDescription);
    if cp.projects != [] {
      var projects := AppendDetailProjects(CountTitle("프로젝트", |cp.projects|) + "\n", i, cp.projects);
      lines := lines + projects;
    } else {
      lines := lines + "";
    }
    out := result + lines;
  }

  method AppendDetailCareers(result: string, cps: seq<CareerWithProjects>) returns (out: string)
    ensures out == result + Enumerate(cps, DetailCareerEntry)
  {
    out := result;
    for i := 0 to |cps|
      invariant out == result + Enumerate(cps[..i], DetailCareerEntry)
    {
      EnumerateSnoc(cps, i, DetailCareerEntry);
      var next := AppendDetailCareer(out, i + 1, cps[i]);
      AppendAssoc(result, Enumerate(cps[..i], DetailCareerEntry), DetailCareerEntry(i + 1, cps[i]));
      out := next;
    }
    assert cps[..|cps|] == cps;
  }

  /** `get_profile_with_full_details`; unlike the other tools its text is
      not stripped. */
  method GetProfileWithFullDetails(profileId: string, fetched: Result<Option<ProfileWithDetails>>) returns (text: string)
    ensures text == FullDetailsText(profileId, fetched)
  {
    if fetched.Err? {
      return DetailsErrorPrefix + fetched.error;
    }
    if fetched.value.None? {
      return NotFoundText(profileId);
    }
    var details := fetched.value.value;
    var careers := details.careers;
    var body;
    if careers != [] {
      body := AppendDetailCareers(CountTitle("경력사항", |careers|) + "\n", careers);
    } else {
      body := NoCareersLine;
    }
    text := DetailsHeader(details.profile) + body;
  }

  /** Without careers the text is the profile block followed by the
      "no careers registered" line; with careers, the profile block is
      followed by a title counting them. */
  lemma FullDetailsShape(profileId: string, d: ProfileWithDetails)
    ensures d.careers == [] ==> FullDetailsText(profileId, Ok(Some(d))) == DetailsHeader(d.profile) + NoCareersLine
    ensures d.careers != [] ==>
              StartsWith(FullDetailsText(profileId, Ok(Some(d))), DetailsHeader(d.profile) + CountTitle("경력사항", |d.careers|))
  {
    if d.careers != [] {
      var head := DetailsHeader(d.profile);
      var title := CountTitle("경력사항", |d.careers|);
      var rest := "\n" + Enumerate(d.careers, DetailCareerEntry);
      AppendAssoc(title, "\n", Enumerate(d.careers, DetailCareerEntry));
      AppendAssoc(head, title, rest);
      assert ((head + title) + rest)[..|head + title|] == head + title;
    }
  }

  /** Different (career, project) positions get different "i-j" labels. */
  lemma ProjectLabelsUnique(i: nat, j: nat, i2: nat, j2: nat)
    requires ProjectLabel(i, j) == ProjectLabel(i2, j2)
    ensures i == i2 && j == j2
  {
    NatToStringDigits(i);
    NatToStringDigits(i2);
    DigitsSplitAt(NatToString(i), '-', NatToString(j), NatToString(i2), NatToString(j2));
    NatToStringInjective(i, i2);
    NatToStringInjective(j, j2);
  }
}
