/**
 * The project memory of storage.js: the project list, the active project id and the settings,
 * kept in the browser's key-value storage, together with the relative dates of `formatDate`
 * and the one-time migration of the old storage keys.
 */
module Storage {
  import opened Wrappers
  import opened JsStrings

  /** A stored project; the two dates are ISO timestamps supplied by the caller. */
  datatype Project = Project(id: string, name: string, content: string, createdAt: string, updatedAt: string)

  /** The fields main.js passes to `updateProject`: a new name or new content. */
  datatype ProjectPatch = ProjectPatch(name: Option<string>, content: Option<string>)

  datatype Settings = Settings(apiKey: string, autoSave: bool, fontSize: int)

  /** The fields a stored settings object carries; a missing one keeps its default. */
  datatype SettingsPatch = SettingsPatch(apiKey: Option<string>, autoSave: Option<bool>, fontSize: Option<int>)

  /** What the settings key holds: nothing (or the empty string), text that is not JSON, or an object. */
  datatype StoredSettings = NoSettings | Unreadable | Saved(fields: SettingsPatch)

  /** `DEFAULT_SETTINGS` (storage.js:25-29). */
  const DefaultSettings := Settings("", true, 14)

  /** `if (id) set else remove` (storage.js:122-128): a missing or empty id leaves no active project. */
  function ActiveValue(id: Option<string>): (r: Option<string>)
    ensures r.Some? <==> id.Some? && id.value != []
    ensures r.Some? ==> r == id
  {
    if id.Some? && id.value != [] then id else None
  }

  // ----- Project list -----

  /** `projects.findIndex(p => p.id === id)`: the first index holding `id`, or -1. */
  function FindIndex(ps: seq<Project>, id: string): (i: int)
    ensures -1 <= i < |ps|
    ensures i >= 0 ==> ps[i].id == id
    ensures forall j :: 0 <= j < |ps| && (i == -1 || j < i) ==> ps[j].id != id
  {
    if ps == [] then -1
    else if ps[0].id == id then 0
    else
      var k := FindIndex(ps[1..], id);
      if k == -1 then -1 else k + 1
  }

  /** `projects.find(p => p.id === id) || null`. */
  function FindProject(ps: seq<Project>, id: string): Option<Project> {
    var i := FindIndex(ps, id);
    if i == -1 then None else Some(ps[i])
  }

  /** `{ ...project, ...updates, updatedAt: now }`. */
  function Merge(p: Project, patch: ProjectPatch, now: string): Project {
    p.(name := patch.name.GetOr(p.name), content := patch.content.GetOr(p.content), updatedAt := now)
  }

  /** `projects.filter(p => p.id !== id)`. */
  function RemoveAll(ps: seq<Project>, id: string): (r: seq<Project>)
    ensures |r| <= |ps|
    ensures forall p :: p in r <==> p in ps && p.id != id
  {
    if ps == [] then []
    else if ps[0].id == id then RemoveAll(ps[1..], id)
    else [ps[0]] + RemoveAll(ps[1..], id)
  }

  /** The settings `getSettings` returns: the stored fields laid over the defaults (storage.js:134-141). */
  function SettingsOf(stored: StoredSettings): Settings {
    match stored
    case Saved(f) =>
      Settings(f.apiKey.GetOr(DefaultSettings.apiKey), f.autoSave.GetOr(DefaultSettings.autoSave),
               f.fontSize.GetOr(DefaultSettings.fontSize))
    case _ => DefaultSettings
  }

  /** The object `saveSettings` stores: every field present. */
  function AsStored(s: Settings): StoredSettings {
    Saved(SettingsPatch(Some(s.apiKey), Some(s.autoSave), Some(s.fontSize)))
  }

  /** The key-value storage as storage.js uses it, with the project list already parsed. */
  class Store {
    var projects: seq<Project>
    var activeId: Option<string>
    var settings: StoredSettings

    constructor (projects: seq<Project>, activeId: Option<string>, settings: StoredSettings)
      ensures this.projects == projects && this.activeId == activeId && this.settings == settings
    {
      this.projects := projects;
      this.activeId := activeId;
      this.settings := settings;
    }

    /** `createProject(name, content)` with the generated id and the current time as parameters. */
    method CreateProject(id: string, now: string, name: string, content: string) returns (newId: string)
      modifies this
      ensures projects == [Project(id, name, content, now, now)] + old(projects)
      ensures activeId == ActiveValue(Some(id)) && settings == old(settings)
      ensures newId == id
    {
      var project := Project(id, name, content, now, now);
      projects := [project] + projects;
      SetActiveProjectId(Some(project.id));
      newId := project.id;
    }

    /** `getProject(id)`. */
    function GetProject(id: string): Option<Project>
      reads this
    {
      FindProject(projects, id)
    }

    /** `updateProject(id, updates)` with the current time as a parameter. */
    method UpdateProject(id: string, patch: ProjectPatch, now: string) returns (r: Option<Project>)
      modifies this
      ensures var i := FindIndex(old(projects), id);
        && (i == -1 ==> r.None? && projects == old(projects))
        && (i >= 0 ==> r == Some(Merge(old(projects)[i], patch, now)) && projects == old(projects)[i := r.value])
      ensures activeId == old(activeId) && settings == old(settings)
    {
      var index := FindIndex(projects, id);
      if index == -1 {
        return None;
      }
      projects := projects[index := Merge(projects[index], patch, now)];
      r := Some(projects[index]);
    }

    /** `deleteProject(id)`. */
    method DeleteProject(id: string)
      modifies this
      ensures projects == RemoveAll(old(projects), id)
      ensures activeId == if old(activeId) == Some(id) then None else old(activeId)
      ensures settings == old(settings)
    {
      projects := RemoveAll(projects, id);
      if GetActiveProjectId() == Some(id) {
        SetActiveProjectId(None);
      }
    }

    function GetActiveProjectId(): Option<string>
      reads this
    {
      activeId
    }

    /** `setActiveProjectId(id)`, where `None` stands for `null`. */
    method SetActiveProjectId(id: Option<string>)
      modifies this
      ensures activeId == ActiveValue(id)
      ensures projects == old(projects) && settings == old(settings)
    {
      if id.Some? && id.value != [] {
        activeId := id;
      } else {
        activeId := None;
      }
    }

    function GetSettings(): Settings
      reads this
    {
      SettingsOf(settings)
    }

    method SaveSettings(s: Settings)
      modifies this
      ensures settings == AsStored(s)
      ensures projects == old(projects) && activeId == old(activeId)
    {
      settings := AsStored(s);
    }
  }

  // ----- Properties of the project list -----

  /** `getProject` finds the first project with the id, and none exactly when no project has it. */
  lemma FindProjectFirst(ps: seq<Project>, id: string)
    ensures FindProject(ps, id).None? <==> forall p :: p in ps ==> p.id != id
    ensures FindProject(ps, id).Some? ==>
      exists i :: 0 <= i < |ps| && ps[i] == FindProject(ps, id).value && ps[i].id == id &&
        forall j :: 0 <= j < i ==> ps[j].id != id
  {
  }

  /** A created project is the one `getProject` returns for its id, and the older ones follow it in order. */
  lemma CreateThenGet(ps: seq<Project>, p: Project)
    ensures FindProject([p] + ps, p.id) == Some(p)
    ensures ([p] + ps)[1..] == ps
  {
  }

  /** After an update the project is found with the new fields; nothing else in the list changed. */
  lemma UpdateThenGet(ps: seq<Project>, id: string, patch: ProjectPatch, now: string)
    requires FindIndex(ps, id) >= 0
    ensures var i := FindIndex(ps, id);
      var q := Merge(ps[i], patch, now);
      var ps' := ps[i := q];
      && FindProject(ps', id) == Some(q)
      && q.id == ps[i].id && q.createdAt == ps[i].createdAt && q.updatedAt == now
      && (patch.name.Some? ==> q.name == patch.name.value) && (patch.name.None? ==> q.name == ps[i].name)
      && (patch.content.Some? ==> q.content == patch.content.value) && (patch.content.None? ==> q.content == ps[i].content)
      && |ps'| == |ps| && forall j :: 0 <= j < |ps| && j != i ==> ps'[j] == ps[j]
  {
    var i := FindIndex(ps, id);
    var ps' := ps[i := Merge(ps[i], patch, now)];
    assert forall j :: 0 <= j < i ==> ps'[j] == ps[j];
  }

  /** After a delete no project has the id. */
  lemma DeleteThenGet(ps: seq<Project>, id: string)
    ensures FindProject(RemoveAll(ps, id), id) == None
  {
    FindProjectFirst(RemoveAll(ps, id), id);
  }

  /** Deleting keeps the other projects in their order: it works piece by piece along the list. */
  lemma {:induction false} RemoveAllAppend(a: seq<Project>, b: seq<Project>, id: string)
    ensures RemoveAll(a + b, id) == RemoveAll(a, id) + RemoveAll(b, id)
  {
    if a == [] {
      assert a + b == b;
    } else {
      assert (a + b)[1..] == a[1..] + b;
      RemoveAllAppend(a[1..], b, id);
    }
  }

  /** Deleting an id no project has changes nothing. */
  lemma {:induction false} RemoveAbsent(ps: seq<Project>, id: string)
    requires forall p :: p in ps ==> p.id != id
    ensures RemoveAll(ps, id) == ps
  {
    if ps != [] {
      RemoveAbsent(ps[1..], id);
    }
  }

  // ----- Properties of the active id and settings -----

  /** Setting a non-empty id makes `getActiveProjectId` return it; setting `null` or `''` clears it. */
  lemma ActiveRoundTrip(id: string)
    ensures id != [] ==> ActiveValue(Some(id)) == Some(id)
    ensures id == [] ==> ActiveValue(Some(id)) == None
    ensures ActiveValue(None) == None
  {
  }

  /**
   * Without readable stored settings `getSettings` returns the defaults; saved settings are
   * read back as saved, and each field missing from the stored object takes its default.
   */
  lemma SettingsRoundTrip(s: Settings, f: SettingsPatch)
    ensures SettingsOf(NoSettings) == Settings("", true, 14) && SettingsOf(Unreadable) == Settings("", true, 14)
    ensures SettingsOf(AsStored(s)) == s
    ensures SettingsOf(Saved(f)) == Settings(f.apiKey.GetOr(""), f.autoSave.GetOr(true), f.fontSize.GetOr(14))
  {
  }

  // ----- formatDate -----

  /** What `formatDate` shows: a relative time, or the calendar date of `toLocaleDateString`. */
  datatype DateLabel = Relative(text: string) | CalendarDate

  const MinuteMs := 60000
  const HourMs := 3600000
  const DayMs := 86400000

  /**
   * `formatDate` on the difference `now - date` in milliseconds (storage.js:37-55). The
   * counts are floored quotients; Dafny's division rounds down for a positive divisor, as
   * `Math.floor` does, also when the date lies in the future.
   */
  function FormatDate(diffMs: int): DateLabel {
    var diffMins := diffMs / MinuteMs;
    var diffHours := diffMs / HourMs;
    var diffDays := diffMs / DayMs;
    if diffMins < 1 then Relative("just now")
    else if diffMins < 60 then Relative(Decimal(diffMins) + "m ago")
    else if diffHours < 24 then Relative(Decimal(diffHours) + "h ago")
    else if diffDays < 7 then Relative(Decimal(diffDays) + "d ago")
    else CalendarDate
  }

  /**
   * The thresholds in milliseconds: under a minute is "just now", then whole minutes up to 59,
   * whole hours up to 23 and whole days up to 6; from a week on the calendar date is shown.
   */
  lemma FormatDateThresholds(d: int)
    ensures FormatDate(d) == Relative("just now") <==> d < 60000
    ensures 60000 <= d < 3600000 ==>
      1 <= d / 60000 <= 59 && FormatDate(d) == Relative(Decimal(d / 60000) + "m ago")
    ensures 3600000 <= d < 86400000 ==>
      1 <= d / 3600000 <= 23 && FormatDate(d) == Relative(Decimal(d / 3600000) + "h ago")
    ensures 86400000 <= d < 604800000 ==>
      1 <= d / 86400000 <= 6 && FormatDate(d) == Relative(Decimal(d / 86400000) + "d ago")
    ensures FormatDate(d) == CalendarDate <==> d >= 604800000
  {
    if d >= 60000 {
      assert d / 60000 >= 1;
      assert Decimal(d / 60000) != [];
      if FormatDate(d).Relative? {
        var t := FormatDate(d).text;
        assert t[|t| - 3..] == "ago";
      }
    }
  }

  /** The number a relative label shows is the floored count of whole units it names. */
  lemma FormatDateCount(d: int, n: nat, unit: string)
    requires FormatDate(d) == Relative(Decimal(n) + unit)
    requires unit in ["m ago", "h ago", "d ago"]
    ensures unit == "m ago" ==> n == d / 60000 && 1 <= n < 60
    ensures unit == "h ago" ==> n == d / 3600000 && 1 <= n < 24
    ensures unit == "d ago" ==> n == d / 86400000 && 1 <= n < 7
  {
    var t := Decimal(n) + unit;
    var k := |Decimal(n)|;
    assert t[k..] == unit;
    assert AllDigits(t[..k]) by { assert t[..k] == Decimal(n); }
    if d / 60000 < 60 && d / 60000 >= 1 {
      DecimalSuffix(Decimal(n), unit, Decimal(d / 60000), "m ago");
      DecimalInjective(n, d / 60000);
    } else if d / 60000 >= 60 && d / 3600000 < 24 {
      DecimalSuffix(Decimal(n), unit, Decimal(d / 3600000), "h ago");
      DecimalInjective(n, d / 3600000);
    } else if d / 60000 >= 60 && d / 86400000 < 7 {
      DecimalSuffix(Decimal(n), unit, Decimal(d / 86400000), "d ago");
      DecimalInjective(n, d / 86400000);
    }
  }

  /** Two digit strings followed by unit words that start with a non-digit are equal only piece by piece. */
  lemma DecimalSuffix(a: string, u: string, b: string, v: string)
    requires AllDigits(a) && AllDigits(b) && u != [] && v != [] && !IsDigit(u[0]) && !IsDigit(v[0])
    requires a + u == b + v
    ensures a == b && u == v
  {
    var s := a + u;
    DigitRunStops(a, u);
    DigitRunStops(b, v);
    assert a == s[..|a|] == b;
  }

  /** The digit run of digits followed by a non-digit ends at that non-digit. */
  lemma {:induction false} DigitRunStops(a: string, u: string)
    requires AllDigits(a) && u != [] && !IsDigit(u[0])
    ensures DigitRun(a + u) == |a|
  {
    if a == [] {
      assert a + u == u;
    } else {
      assert (a + u)[1..] == a[1..] + u;
      DigitRunStops(a[1..], u);
    }
  }

  lemma DecimalInjective(m: nat, n: nat)
    requires Decimal(m) == Decimal(n)
    ensures m == n
  {
    DecimalRoundTrip(m);
    DecimalRoundTrip(n);
  }

  // ----- Migration -----

  const ProjectsKey := "inkwell_projects"
  const SettingsKey := "inkwell_settings"
  const ActiveProjectKey := "inkwell_active_project"
  const OldProjectsKey := "markcraft_projects"
  const OldActiveProjectKey := "markcraft_active_project"
  const OldSettingsKey := "markcraft_settings"

  /** `localStorage.getItem(key)` read as a condition: absent and empty values are both false. */
  predicate Truthy(m: map<string, string>, key: string) {
    key in m && m[key] != []
  }

  /** Copies one old key to its new name when the old value is set and the new one is not. */
  function CopyKey(m: map<string, string>, from: string, to: string): map<string, string> {
    if Truthy(m, from) && !Truthy(m, to) then m[to := m[from]] else m
  }

  /** The migration run when storage.js loads (storage.js:11-22). */
  function Migrate(m: map<string, string>): map<string, string> {
    var m1 := CopyKey(m, OldProjectsKey, ProjectsKey);
    var m2 := CopyKey(m1, OldActiveProjectKey, ActiveProjectKey);
    m2 - {OldSettingsKey}
  }

  /**
   * Migration keeps whatever is already under the new keys, moves the old projects and active
   * id there otherwise, drops the old settings, and touches no other key.
   */
  lemma MigrateEffect(m: map<string, string>)
    ensures var r := Migrate(m);
      && OldSettingsKey !in r
      && (Truthy(m, ProjectsKey) ==> r[ProjectsKey] == m[ProjectsKey])
      && (!Truthy(m, ProjectsKey) && Truthy(m, OldProjectsKey) ==> r[ProjectsKey] == m[OldProjectsKey])
      && (Truthy(m, ActiveProjectKey) ==> r[ActiveProjectKey] == m[ActiveProjectKey])
      && (!Truthy(m, ActiveProjectKey) && Truthy(m, OldActiveProjectKey) ==> r[ActiveProjectKey] == m[OldActiveProjectKey])
      && (!(Truthy(m, OldProjectsKey) && !Truthy(m, ProjectsKey)) ==>
            (ProjectsKey in r <==> ProjectsKey in m) && (ProjectsKey in m ==> r[ProjectsKey] == m[ProjectsKey]))
      && (!(Truthy(m, OldActiveProjectKey) && !Truthy(m, ActiveProjectKey)) ==>
            (ActiveProjectKey in r <==> ActiveProjectKey in m) && (ActiveProjectKey in m ==> r[ActiveProjectKey] == m[ActiveProjectKey]))
      && (forall k :: k != ProjectsKey && k != ActiveProjectKey && k != OldSettingsKey ==>
            (k in r <==> k in m) && (k in m ==> r[k] == m[k]))
  {
  }

  /** Running the migration again changes nothing. */
  lemma MigrateIdempotent(m: map<string, string>)
    ensures Migrate(Migrate(m)) == Migrate(m)
  {
    var r := Migrate(m);
    MigrateEffect(m);
    assert CopyKey(r, OldProjectsKey, ProjectsKey) == r;
    assert CopyKey(r, OldActiveProjectKey, ActiveProjectKey) == r;
    assert r - {OldSettingsKey} == r;
  }
}
