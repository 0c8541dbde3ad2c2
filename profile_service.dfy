/**
 * The profile service over its data store. The store is three tables of
 * rows in insertion order; a query is a filter over a table, optionally
 * ordered by start date (latest first). The store itself never fails here,
 * so the service's "error while ..." exceptions are not modelled.
 */
module ProfileService {
  import opened Wrappers
  import opened Dates
  import opened StableSort
  import opened ProfileModels

  // ---------------------------------------------------------------- queries over a table

  /** The first row a filter matches (`result.data[0]`), if any. */
  function FirstWith<T>(rows: seq<T>, matches: T -> bool): (r: Option<T>)
    ensures r.None? <==> forall i :: 0 <= i < |rows| ==> !matches(rows[i])
    ensures r.Some? ==> exists i :: 0 <= i < |rows| && rows[i] == r.value && matches(r.value)
                                    && forall k :: 0 <= k < i ==> !matches(rows[k])
  {
    if rows == [] then None
    else if matches(rows[0]) then Some(rows[0])
    else
      var r := FirstWith(rows[1..], matches);
      assert forall k :: 0 <= k < |rows[1..]| ==> rows[1..][k] == rows[k + 1];
      r
  }

  /** The rows a filter matches, in table order. */
  function Select<T>(rows: seq<T>, keep: T -> bool): seq<T>
  {
    if rows == [] then []
    else if keep(rows[0]) then [rows[0]] + Select(rows[1..], keep)
    else Select(rows[1..], keep)
  }

  /** A filter returns exactly the matching rows, never more than the table holds. */
  lemma {:induction false} SelectSpec<T>(rows: seq<T>, keep: T -> bool)
    ensures |Select(rows, keep)| <= |rows|
    ensures forall x :: x in Select(rows, keep) <==> x in rows && keep(x)
  {
    if rows != [] {
      SelectSpec(rows[1..], keep);
      assert forall x :: x in rows <==> x == rows[0] || x in rows[1..];
    }
  }

  /** A filter matches nothing exactly when it leaves every row out. */
  lemma {:induction false} SelectEmpty<T>(rows: seq<T>, keep: T -> bool)
    ensures Select(rows, keep) == [] <==> forall i :: 0 <= i < |rows| ==> !keep(rows[i])
  {
    if rows != [] {
      SelectEmpty(rows[1..], keep);
      assert forall i :: 1 <= i < |rows| ==> rows[i] == rows[1..][i - 1];
    }
  }

  /** `.range(start, end)`: the rows at positions `start` to `end`
      inclusive, as far as the table reaches. */
  function Range<T>(rows: seq<T>, start: nat, end: int): (r: seq<T>)
    ensures |r| == if start <= end && start < |rows| then (if end < |rows| then end - start + 1 else |rows| - start) else 0
    ensures forall k :: 0 <= k < |r| ==> r[k] == rows[start + k]
  {
    if start <= end && start < |rows| then rows[start..if end < |rows| then end + 1 else |rows|] else []
  }

  /** Rewrites every row the filter matches, keeping the order. */
  function UpdateWhere<T>(rows: seq<T>, matches: T -> bool, apply: T -> T): (r: seq<T>)
    ensures |r| == |rows|
  {
    seq(|rows|, i requires 0 <= i < |rows| => if matches(rows[i]) then apply(rows[i]) else rows[i])
  }

  /** Rows an update touches stay matched, so the first matching row after
      the update is the first matching row before it, updated; the rows it
      does not match are left as they were. */
  lemma UpdateWhereSpec<T>(rows: seq<T>, matches: T -> bool, apply: T -> T)
    requires forall x :: matches(x) ==> matches(apply(x))
    ensures var r := UpdateWhere(rows, matches, apply);
            && (forall i :: 0 <= i < |rows| && !matches(rows[i]) ==> r[i] == rows[i])
            && (forall i :: 0 <= i < |rows| && matches(rows[i]) ==> r[i] == apply(rows[i]))
            && FirstWith(r, matches) == (if FirstWith(rows, matches).Some?
                                          then Some(apply(FirstWith(rows, matches).value)) else None)
  {
    var r := UpdateWhere(rows, matches, apply);
    var f := FirstWith(rows, matches);
    if f.Some? {
      var i :| 0 <= i < |rows| && rows[i] == f.value && matches(f.value) && forall k :: 0 <= k < i ==> !matches(rows[k]);
      FirstWithAt(r, matches, i);
    } else {
      assert forall i :: 0 <= i < |r| ==> !matches(r[i]);
    }
  }

  /** The first match sits at the first index the filter accepts. */
  lemma {:induction false} FirstWithAt<T>(rows: seq<T>, matches: T -> bool, i: nat)
    requires i < |rows| && matches(rows[i]) && forall k :: 0 <= k < i ==> !matches(rows[k])
    ensures FirstWith(rows, matches) == Some(rows[i])
  {
    if i > 0 {
      FirstWithAt(rows[1..], matches, i - 1);
    }
  }

  /** The rows the filter does not match (`.delete().eq(...)` leaves these). */
  function Reject<T>(rows: seq<T>, matches: T -> bool): seq<T>
  {
    if rows == [] then []
    else if matches(rows[0]) then Reject(rows[1..], matches)
    else [rows[0]] + Reject(rows[1..], matches)
  }

  /** A delete removes exactly the matching rows, and the table shrinks
      exactly when some row matched. */
  lemma {:induction false} RejectSpec<T>(rows: seq<T>, matches: T -> bool)
    ensures |Reject(rows, matches)| <= |rows|
    ensures forall x :: x in Reject(rows, matches) <==> x in rows && !matches(x)
    ensures |Reject(rows, matches)| < |rows| <==> exists i :: 0 <= i < |rows| && matches(rows[i])
  {
    if rows != [] {
      RejectSpec(rows[1..], matches);
      assert forall x :: x in rows <==> x == rows[0] || x in rows[1..];
      if exists i :: 0 <= i < |rows[1..]| && matches(rows[1..][i]) {
        var i :| 0 <= i < |rows[1..]| && matches(rows[1..][i]);
        assert matches(rows[i + 1]);
      }
      if exists i :: 0 <= i < |rows| && matches(rows[i]) {
        var i :| 0 <= i < |rows| && matches(rows[i]);
        if i > 0 { assert matches(rows[1..][i - 1]); }
      }
    }
  }

  // ---------------------------------------------------------------- partial updates

  /** `{k: v for k, v in data.model_dump().items() if v is not None}` is empty. */
  predicate NoProfileChanges(u: ProfileUpdate) {
    u.name.None? && u.address.None? && u.phone.None? && u.email.None? && u.bio.None?
  }

  predicate NoCareerChanges(u: CareerUpdate) {
    u.companyName.None? && u.startDate.None? && u.endDate.None? && u.jobDescription.None? && u.position.None?
  }

  predicate NoProjectChanges(u: ProjectUpdate) {
    u.projectName.None? && u.startDate.None? && u.endDate.None? && u.description.None? && u.technologies.None?
  }

  /** Writes the fields the update sets; a None field leaves the column alone. */
  function Overwrite<T>(current: T, given: Option<T>): T
  {
    if given.Some? then given.value else current
  }

  /** The same, for a nullable column: a None field cannot null it. */
  function OverwriteNullable<T>(current: Option<T>, given: Option<T>): (r: Option<T>)
    ensures given.Some? ==> r == given
    ensures given.None? ==> r == current
    ensures current.Some? ==> r.Some?
  {
    if given.Some? then given else current
  }

  function ApplyProfileUpdate(p: Profile, u: ProfileUpdate): (r: Profile)
    ensures r.id == p.id
    ensures NoProfileChanges(u) ==> r == p
  {
    Profile(p.id, Overwrite(p.name, u.name), OverwriteNullable(p.address, u.address),
            OverwriteNullable(p.phone, u.phone), Overwrite(p.email, u.email), OverwriteNullable(p.bio, u.bio))
  }

  function ApplyCareerUpdate(c: Career, u: CareerUpdate): (r: Career)
    ensures r.id == c.id && r.profileId == c.profileId
    ensures NoCareerChanges(u) ==> r == c
  {
    Career(c.id, c.profileId, Overwrite(c.companyName, u.companyName), Overwrite(c.startDate, u.startDate),
           OverwriteNullable(c.endDate, u.endDate), OverwriteNullable(c.jobDescription, u.jobDescription),
           OverwriteNullable(c.position, u.position))
  }

  function ApplyProjectUpdate(p: Project, u: ProjectUpdate): (r: Project)
    ensures r.id == p.id && r.careerId == p.careerId
    ensures NoProjectChanges(u) ==> r == p
  {
    Project(p.id, p.careerId, Overwrite(p.projectName, u.projectName), OverwriteNullable(p.startDate, u.startDate),
            OverwriteNullable(p.endDate, u.endDate), OverwriteNullable(p.description, u.description),
            OverwriteNullable(p.technologies, u.technologies))
  }

  /** An update can set a nullable column but never clear it: a column that
      held a value still holds one afterwards. */
  lemma UpdatesNeverClear(p: Profile, u: ProfileUpdate, c: Career, cu: CareerUpdate, j: Project, ju: ProjectUpdate)
    ensures p.phone.Some? ==> ApplyProfileUpdate(p, u).phone.Some?
    ensures p.address.Some? ==> ApplyProfileUpdate(p, u).address.Some?
    ensures p.bio.Some? ==> ApplyProfileUpdate(p, u).bio.Some?
    ensures c.endDate.Some? ==> ApplyCareerUpdate(c, cu).endDate.Some?
    ensures c.position.Some? ==> ApplyCareerUpdate(c, cu).position.Some?
    ensures c.jobDescription.Some? ==> ApplyCareerUpdate(c, cu).jobDescription.Some?
    ensures j.startDate.Some? ==> ApplyProjectUpdate(j, ju).startDate.Some?
    ensures j.endDate.Some? ==> ApplyProjectUpdate(j, ju).endDate.Some?
    ensures j.description.Some? ==> ApplyProjectUpdate(j, ju).description.Some?
    ensures j.technologies.Some? ==> ApplyProjectUpdate(j, ju).technologies.Some?
  {
  }

  /** The update bodies the request models accept. */
  predicate ValidProfileUpdate(u: ProfileUpdate) {
    WithinLength(u.name, MaxNameLength) && WithinLength(u.phone, MaxPhoneLength)
  }

  predicate ValidCareerUpdate(u: CareerUpdate) {
    && WithinLength(u.companyName, MaxCompanyNameLength)
    && WithinLength(u.position, MaxPositionLength)
    && (u.startDate.Some? ==> ValidDate(u.startDate.value))
    && (u.endDate.Some? ==> ValidDate(u.endDate.value))
  }

  predicate ValidProjectUpdate(u: ProjectUpdate) {
    && WithinLength(u.projectName, MaxProjectNameLength)
    && (u.startDate.Some? ==> ValidDate(u.startDate.value))
    && (u.endDate.Some? ==> ValidDate(u.endDate.value))
  }

  /** An update body that passes the request model's checks is within bounds. */
  lemma ValidatedUpdatesAreValid(raw: RawProfile, rawC: RawCareer, rawJ: RawProject)
    ensures ValidateProfileUpdate(raw).Ok? ==> ValidProfileUpdate(ValidateProfileUpdate(raw).value)
    ensures ValidateCareerUpdate(rawC).Ok? ==> ValidCareerUpdate(ValidateCareerUpdate(rawC).value)
    ensures ValidateProjectUpdate(rawJ).Ok? ==> ValidProjectUpdate(ValidateProjectUpdate(rawJ).value)
  {
  }

  /** Applying an update within bounds to a valid record gives a valid record. */
  lemma ProfileUpdateKeepsValid(p: Profile, u: ProfileUpdate)
    requires ValidProfile(p) && ValidProfileUpdate(u)
    ensures ValidProfile(ApplyProfileUpdate(p, u))
  {
  }

  lemma CareerUpdateKeepsValid(c: Career, u: CareerUpdate)
    requires ValidCareer(c) && ValidCareerUpdate(u)
    ensures ValidCareer(ApplyCareerUpdate(c, u))
  {
  }

  lemma ProjectUpdateKeepsValid(p: Project, u: ProjectUpdate)
    requires ValidProject(p) && ValidProjectUpdate(u)
    ensures ValidProject(ApplyProjectUpdate(p, u))
  {
  }

  /** An update that keeps a property keeps it for a whole table. */
  lemma UpdateWhereKeeps<T>(rows: seq<T>, matches: T -> bool, apply: T -> T, ok: T -> bool)
    requires forall x :: x in rows ==> ok(x)
    requires forall x :: ok(x) ==> ok(apply(x))
    ensures forall x :: x in UpdateWhere(rows, matches, apply) ==> ok(x)
  {
    var r := UpdateWhere(rows, matches, apply);
    forall x | x in r ensures ok(x) {
      var i :| 0 <= i < |r| && r[i] == x;
      assert rows[i] in rows;
    }
  }

  // ---------------------------------------------------------------- ordering

  /** `.order('start_date', desc=True)` on careers. */
  function CareerStart(c: Career): Date { c.startDate }

  /** Later than every date a record can hold (years end at 9999). */
  const AfterAllDates: Date := Date(10000, 1, 1)

  /** `.order('start_date', desc=True)` on projects: a descending order puts
      null start dates first, so they sort as if later than any date. */
  function ProjectStart(p: Project): Date { p.startDate.GetOr(AfterAllDates) }

  /** Undated projects come before every dated one in a project listing. */
  lemma UndatedProjectsFirst(ps: seq<Project>, i: nat, j: nat)
    requires i < |SortDesc(ps, ProjectStart)| && j < |SortDesc(ps, ProjectStart)|
    requires SortDesc(ps, ProjectStart)[i].startDate.Some? && ValidDate(SortDesc(ps, ProjectStart)[i].startDate.value)
    requires SortDesc(ps, ProjectStart)[j].startDate.None?
    ensures j < i
  {
    SortDescSpec(ps, ProjectStart);
  }

  // ---------------------------------------------------------------- the store

  class Database {
    var profiles: seq<Profile>
    var careers: seq<Career>
    var projects: seq<Project>

    /** Every stored record satisfies its model's constraints. */
    predicate Valid()
      reads this
    {
      && (forall p :: p in profiles ==> ValidProfile(p))
      && (forall c :: c in careers ==> ValidCareer(c))
      && (forall p :: p in projects ==> ValidProject(p))
    }

    constructor ()
      ensures Valid()
      ensures profiles == [] && careers == [] && projects == []
    {
      profiles, careers, projects := [], [], [];
    }

    // profiles

    /** `insert(...)`: the new row, with the id the store assigned, comes back. */
    method CreateProfile(p: Profile) returns (r: Profile)
      requires Valid() && ValidProfile(p)
      modifies this
      ensures Valid() && r == p
      ensures profiles == old(profiles) + [p] && careers == old(careers) && projects == old(projects)
    {
      profiles := profiles + [p];
      r := p;
    }

    function GetProfileById(id: Uuid): Option<Profile>
      reads this
    {
      FirstWith(profiles, (p: Profile) => p.id == id)
    }

    function GetProfileByEmail(email: string): Option<Profile>
      reads this
    {
      FirstWith(profiles, (p: Profile) => p.email == email)
    }

    /** `get_all_profiles`: rows `offset` to `offset + limit - 1`; the
        endpoint accepts only `limit >= 1`. */
    function GetAllProfiles(limit: nat, offset: nat): (r: seq<Profile>)
      requires limit >= 1
      reads this
      ensures |r| <= limit
      ensures |r| == if offset < |profiles| then (if offset + limit <= |profiles| then limit else |profiles| - offset) else 0
      ensures forall k :: 0 <= k < |r| ==> r[k] == profiles[offset + k]
    {
      Range(profiles, offset, offset + limit - 1)
    }

    /** `update_profile`. */
    method UpdateProfile(id: Uuid, u: ProfileUpdate) returns (r: Option<Profile>)
      requires Valid() && ValidProfileUpdate(u)
      modifies this
      ensures Valid()
      ensures NoProfileChanges(u) ==> profiles == old(profiles) && r == old(GetProfileById(id))
      ensures !NoProfileChanges(u) ==>
                profiles == UpdateWhere(old(profiles), (p: Profile) => p.id == id, (p: Profile) => ApplyProfileUpdate(p, u))
      ensures r.None? <==> old(GetProfileById(id)).None?
      ensures r.Some? ==> r.value == ApplyProfileUpdate(old(GetProfileById(id)).value, u)
      ensures careers == old(careers) && projects == old(projects)
    {
      if NoProfileChanges(u) {
        return GetProfileById(id);
      }
      var matches := (p: Profile) => p.id == id;
      var apply := (p: Profile) => ApplyProfileUpdate(p, u);
      UpdateWhereSpec(profiles, matches, apply);
      forall x: Profile | ValidProfile(x) ensures ValidProfile(apply(x)) {
        ProfileUpdateKeepsValid(x, u);
      }
      UpdateWhereKeeps(profiles, matches, apply, ValidProfile);
      profiles := UpdateWhere(profiles, matches, apply);
      r := FirstWith(profiles, matches);
    }

    /** `delete_profile`: true exactly when a row went. */
    method DeleteProfile(id: Uuid) returns (deleted: bool)
      requires Valid()
      modifies this
      ensures Valid()
      ensures profiles == Reject(old(profiles), (p: Profile) => p.id == id)
      ensures deleted <==> old(GetProfileById(id)).Some?
      ensures GetProfileById(id).None?
      ensures careers == old(careers) && projects == old(projects)
    {
      var matches := (p: Profile) => p.id == id;
      RejectSpec(profiles, matches);
      var remaining := Reject(profiles, matches);
      deleted := |remaining| < |profiles|;
      profiles := remaining;
    }

    // careers

    method CreateCareer(c: Career) returns (r: Career)
      requires Valid() && ValidCareer(c)
      modifies this
      ensures Valid() && r == c
      ensures careers == old(careers) + [c] && profiles == old(profiles) && projects == old(projects)
    {
      careers := careers + [c];
      r := c;
    }

    function GetCareerById(id: Uuid): Option<Career>
      reads this
    {
      FirstWith(careers, (c: Career) => c.id == id)
    }

    /** `get_careers_by_profile_id`: that profile's careers, latest start first. */
    function GetCareersByProfileId(profileId: Uuid): seq<Career>
      reads this
    {
      SortDesc(Select(careers, (c: Career) => c.profileId == profileId), CareerStart)
    }

    method UpdateCareer(id: Uuid, u: CareerUpdate) returns (r: Option<Career>)
      requires Valid() && ValidCareerUpdate(u)
      modifies this
      ensures Valid()
      ensures NoCareerChanges(u) ==> careers == old(careers) && r == old(GetCareerById(id))
      ensures !NoCareerChanges(u) ==>
                careers == UpdateWhere(old(careers), (c: Career) => c.id == id, (c: Career) => ApplyCareerUpdate(c, u))
      ensures r.None? <==> old(GetCareerById(id)).None?
      ensures r.Some? ==> r.value == ApplyCareerUpdate(old(GetCareerById(id)).value, u)
      ensures profiles == old(profiles) && projects == old(projects)
    {
      if NoCareerChanges(u) {
        return GetCareerById(id);
      }
      var matches := (c: Career) => c.id == id;
      var apply := (c: Career) => ApplyCareerUpdate(c, u);
      UpdateWhereSpec(careers, matches, apply);
      forall x: Career | ValidCareer(x) ensures ValidCareer(apply(x)) {
        CareerUpdateKeepsValid(x, u);
      }
      UpdateWhereKeeps(careers, matches, apply, ValidCareer);
      careers := UpdateWhere(careers, matches, apply);
      r := FirstWith(careers, matches);
    }

    method DeleteCareer(id: Uuid) returns (deleted: bool)
      requires Valid()
      modifies this
      ensures Valid()
      ensures careers == Reject(old(careers), (c: Career) => c.id == id)
      ensures deleted <==> old(GetCareerById(id)).Some?
      ensures profiles == old(profiles) && projects == old(projects)
    {
      var matches := (c: Career) => c.id == id;
      RejectSpec(careers, matches);
      var remaining := Reject(careers, matches);
      deleted := |remaining| < |careers|;
      careers := remaining;
    }

    // projects

    method CreateProject(p: Project) returns (r: Project)
      requires Valid() && ValidProject(p)
      modifies this
      ensures Valid() && r == p
      ensures projects == old(projects) + [p] && profiles == old(profiles) && careers == old(careers)
    {
      projects := projects + [p];
      r := p;
    }

    function GetProjectById(id: Uuid): Option<Project>
      reads this
    {
      FirstWith(projects, (p: Project) => p.id == id)
    }

    /** `get_projects_by_career_id`: that career's projects, latest start
        first, undated ones ahead of all. */
    function GetProjectsByCareerId(careerId: Uuid): seq<Project>
      reads this
    {
      SortDesc(Select(projects, (p: Project) => p.careerId == careerId), ProjectStart)
    }

    method UpdateProject(id: Uuid, u: ProjectUpdate) returns (r: Option<Project>)
      requires Valid() && ValidProjectUpdate(u)
      modifies this
      ensures Valid()
      ensures NoProjectChanges(u) ==> projects == old(projects) && r == old(GetProjectById(id))
      ensures !NoProjectChanges(u) ==>
                projects == UpdateWhere(old(projects), (p: Project) => p.id == id, (p: Project) => ApplyProjectUpdate(p, u))
      ensures r.None? <==> old(GetProjectById(id)).None?
      ensures r.Some? ==> r.value == ApplyProjectUpdate(old(GetProjectById(id)).value, u)
      ensures profiles == old(profiles) && careers == old(careers)
    {
      if NoProjectChanges(u) {
        return GetProjectById(id);
      }
      var matches := (p: Project) => p.id == id;
      var apply := (p: Project) => ApplyProjectUpdate(p, u);
      UpdateWhereSpec(projects, matches, apply);
      forall x: Project | ValidProject(x) ensures ValidProject(apply(x)) {
        ProjectUpdateKeepsValid(x, u);
      }
      UpdateWhereKeeps(projects, matches, apply, ValidProject);
      projects := UpdateWhere(projects, matches, apply);
      r := FirstWith(projects, matches);
    }

    method DeleteProject(id: Uuid) returns (deleted: bool)
      requires Valid()
      modifies this
      ensures Valid()
      ensures projects == Reject(old(projects), (p: Project) => p.id == id)
      ensures deleted <==> old(GetProjectById(id)).Some?
      ensures profiles == old(profiles) && careers == old(careers)
    {
      var matches := (p: Project) => p.id == id;
      RejectSpec(projects, matches);
      var remaining := Reject(projects, matches);
      deleted := |remaining| < |projects|;
      projects := remaining;
    }

    // details

    /** A career of the profile with the projects fetched for it. */
    function WithProjects(c: Career): CareerWithProjects
      reads this
    {
      CareerWithProjects(c, GetProjectsByCareerId(c.id))
    }

    function Details(profileId: Uuid): Option<ProfileWithDetails>
      reads this
    {
      match GetProfileById(profileId)
      case None => None
      case Some(p) =>
        var cs := GetCareersByProfileId(profileId);
        Some(ProfileWithDetails(p, seq(|cs|, i requires 0 <= i < |cs| reads this => WithProjects(cs[i]))))
    }

    /** `get_profile_with_details`: the loop attaching each career's projects. */
    method GetProfileWithDetails(profileId: Uuid) returns (r: Option<ProfileWithDetails>)
      ensures r == Details(profileId)
    {
      var profile := GetProfileById(profileId);
      if profile.None? {
        return None;
      }
      var cs := GetCareersByProfileId(profileId);
      var withProjects: seq<CareerWithProjects> := [];
      for i := 0 to |cs|
        invariant |withProjects| == i
        invariant forall k :: 0 <= k < i ==> withProjects[k] == WithProjects(cs[k])
      {
        var fetched := GetProjectsByCareerId(cs[i].id);
        withProjects := withProjects + [CareerWithProjects(cs[i], fetched)];
      }
      assert withProjects == seq(|cs|, i requires 0 <= i < |cs| reads this => WithProjects(cs[i]));
      r := Some(ProfileWithDetails(profile.value, withProjects));
    }

    /** A profile's career listing holds exactly its stored careers, latest first. */
    lemma CareersOfProfileSpec(profileId: Uuid)
      ensures SortedDesc(GetCareersByProfileId(profileId), CareerStart)
      ensures forall c :: c in GetCareersByProfileId(profileId) <==> c in careers && c.profileId == profileId
      ensures multiset(GetCareersByProfileId(profileId)) == multiset(Select(careers, (c: Career) => c.profileId == profileId))
    {
      var selected := Select(careers, (c: Career) => c.profileId == profileId);
      SelectSpec(careers, (c: Career) => c.profileId == profileId);
      SortDescSpec(selected, CareerStart);
      forall c ensures c in GetCareersByProfileId(profileId) <==> c in selected {
        assert c in GetCareersByProfileId(profileId) <==> c in multiset(selected);
      }
    }

    /** A career's project listing holds exactly its stored projects, latest first. */
    lemma ProjectsOfCareerSpec(careerId: Uuid)
      ensures SortedDesc(GetProjectsByCareerId(careerId), ProjectStart)
      ensures forall p :: p in GetProjectsByCareerId(careerId) <==> p in projects && p.careerId == careerId
      ensures multiset(GetProjectsByCareerId(careerId)) == multiset(Select(projects, (p: Project) => p.careerId == careerId))
    {
      var selected := Select(projects, (p: Project) => p.careerId == careerId);
      SelectSpec(projects, (p: Project) => p.careerId == careerId);
      SortDescSpec(selected, ProjectStart);
      forall p ensures p in GetProjectsByCareerId(careerId) <==> p in selected {
        assert p in GetProjectsByCareerId(careerId) <==> p in multiset(selected);
      }
    }

    /** Details exist exactly when the profile does; they hold the profile's
        careers in listing order, each with the projects stored for it. */
    lemma DetailsSpec(profileId: Uuid)
      ensures Details(profileId).None? <==> GetProfileById(profileId).None?
      ensures Details(profileId).Some? ==>
                var d := Details(profileId).value;
                && d.profile == GetProfileById(profileId).value
                && d.profile.id == profileId
                && |d.careers| == |GetCareersByProfileId(profileId)|
                && (forall i :: 0 <= i < |d.careers| ==>
                      && d.careers[i].career == GetCareersByProfileId(profileId)[i]
                      && d.careers[i].career in careers
                      && d.careers[i].career.profileId == profileId
                      && (forall x :: x in d.careers[i].projects <==> x in projects && x.careerId == d.careers[i].career.id))
    {
      if Details(profileId).Some? {
        var d := Details(profileId).value;
        CareersOfProfileSpec(profileId);
        forall i | 0 <= i < |d.careers|
          ensures forall x :: x in d.careers[i].projects <==> x in projects && x.careerId == d.careers[i].career.id
        {
          ProjectsOfCareerSpec(d.careers[i].career.id);
        }
      }
    }
  }
}
