/** The start-up logic of the two launchers, `main.py` and `App/main.py`:
    logging in against `users.json`, trusting `last_login.json` only while
    its user still exists, reopening the last project, and the main
    window's add-project form.  The two launchers share their login and
    start-up checks; they differ in where a new project is recorded: the
    first keeps a list of project locations, the second one list of
    projects. */
module Launcher {
  import opened Common
  import opened Credentials
  import Memo

  /** the key of `last_project.json` */
  const LastProjectKey := "last_project_path"
  const PipelineFolder := "00_Pipeline"

  // ------------------------------------------------------------ login

  /** `login()`: nothing when the dialog was cancelled (`input` None) or
      either field is empty; otherwise the first user with exactly that name
      and password, if any. */
  function Login(input: Option<(string, string)>, users: seq<User>): (r: Option<User>)
    ensures input.None? ==> r.None?
    ensures input.Some? && (input.value.0 == "" || input.value.1 == "") ==> r.None?
    ensures r.Some? ==> exists i ::
      && 0 <= i < |users| && users[i] == r.value
      && Matches(users[i], input.value.0, input.value.1)
      && forall j :: 0 <= j < i ==> !Matches(users[j], input.value.0, input.value.1)
    ensures r.None? && input.Some? && input.value.0 != "" && input.value.1 != "" ==>
      forall u :: u in users ==> !Matches(u, input.value.0, input.value.1)
  {
    if input.None? then None
    else if input.value.0 == "" || input.value.1 == "" then None
    else
      FirstMatchIsFirst(users, input.value.0, input.value.1);
      FirstMatch(users, input.value.0, input.value.1)
  }

  /** `check_last_login()`: the user `last_login.json` holds, but only while
      `users.json` has a user with the same name and password. */
  function CheckLastLogin(lastLogin: Option<User>, usersFile: Option<seq<User>>): (r: Option<User>)
    ensures r.Some? ==> r == lastLogin
    ensures r.Some? <==>
      && lastLogin.Some? && usersFile.Some?
      && exists u :: u in usersFile.value && Matches(u, lastLogin.value.username, lastLogin.value.password)
  {
    if lastLogin.None? || usersFile.None? then None
    else
      var u := lastLogin.value;
      FirstMatchIsFirst(usersFile.value, u.username, u.password);
      if FirstMatch(usersFile.value, u.username, u.password).Some? then lastLogin else None
  }

  /** A user who logged in is let in again on the next start, as long as
      `users.json` is unchanged. */
  lemma LoginThenCheckLastLogin(input: Option<(string, string)>, users: seq<User>)
    requires Login(input, users).Some?
    ensures CheckLastLogin(Login(input, users), Some(users)) == Login(input, users)
  {
    var u := Login(input, users).value;
    assert u.username == input.value.0 && u.password == input.value.1;
    assert u in users;
  }

  /** The files the launcher keeps between runs. */
  class Startup {
    /** `last_login.json` */
    var lastLogin: Option<User>
    /** `last_project.json` */
    var lastProject: Option<Json>

    constructor (lastLogin: Option<User>, lastProject: Option<Json>)
      ensures this.lastLogin == lastLogin && this.lastProject == lastProject
    {
      this.lastLogin := lastLogin;
      this.lastProject := lastProject;
    }

    /** `login()`: a successful login is written to `last_login.json`. */
    method DoLogin(input: Option<(string, string)>, users: seq<User>) returns (user: Option<User>)
      modifies this
      ensures user == Login(input, users)
      ensures lastLogin == if user.Some? then user else old(lastLogin)
      ensures lastProject == old(lastProject)
    {
      user := Login(input, users);
      if user.Some? {
        lastLogin := user;
      }
    }

    /** `logout`: forgets the last login. */
    method Logout()
      modifies this
      ensures lastLogin.None? && lastProject == old(lastProject)
      ensures forall usersFile :: CheckLastLogin(lastLogin, usersFile).None?
    {
      lastLogin := None;
    }

    /** `open_project`: remembers the project. */
    method OpenProject(path: string)
      modifies this
      ensures lastProject == Some(map[LastProjectKey := Str(path)]) && lastLogin == old(lastLogin)
    {
      lastProject := Some(map[LastProjectKey := Str(path)]);
    }

    /** `check_last_project()`: the remembered project when it is
        non-empty and still exists; `existing` are the paths that exist. */
    function CheckLastProject(existing: set<string>): Option<string>
      reads this
    {
      Memo.Recall(lastProject, LastProjectKey, existing)
    }
  }

  /** The project opened last is reopened on the next start while it
      exists. */
  lemma OpenedProjectIsReopened(path: string, existing: set<string>)
    ensures Memo.Recall(Some(map[LastProjectKey := Str(path)]), LastProjectKey, existing)
      == if path != "" && path in existing then Some(path) else None
  {
    Memo.WriteThenRecall(LastProjectKey, path, existing);
  }

  /** Only an administrator may create projects. */
  predicate CanAddProject(user: User)
  {
    user.role == "admin"
  }

  // ------------------------------------------- projects of `main.py`

  /** The fields of a project record: `project.json` of `main.py`, an
      entry of `projects.json` of `App/main.py`. */
  datatype ProjectEntry = ProjectEntry(name: string, short: string, path: string, thumbnail: string)

  /** What `MainWindow.add_project` of `main.py` lays down. */
  datatype NewProject = NewProject(
    path: string,
    dirs: seq<string>,
    record: ProjectEntry,
    recordFile: string,
    dataFile: string,
    dataShort: string)

  /** An empty short name falls back to the project name. */
  function ShortOrName(name: string, short: string): (r: string)
    ensures r != "" <==> name != "" || short != ""
    ensures short != "" ==> r == short
  {
    if short == "" then name else short
  }

  /** The project `add_project` of `main.py` makes from the form's (already
      stripped) name, short name and location; nothing without a name or a
      location. */
  function MakeProject(name: string, short: string, location: string): (r: Option<NewProject>)
    ensures r.Some? <==> name != "" && location != ""
    ensures r.Some? ==>
      && r.value.record.name == name && r.value.record.short == ShortOrName(name, short) && r.value.record.short != ""
      && r.value.record.path == Join(location, name) && r.value.path == r.value.record.path
      && r.value.dataShort == r.value.record.short
      && r.value.recordFile == Join(Join(r.value.path, PipelineFolder), "project.json")
  {
    if name == "" || location == "" then None
    else
      var path := Join(location, name);
      var pipeline := Join(path, PipelineFolder);
      var s := ShortOrName(name, short);
      Some(NewProject(
        path,
        [path, pipeline, Join(pipeline, "icons")],
        ProjectEntry(name, s, path, Join(pipeline, "thumbnail.jpg")),
        Join(pipeline, "project.json"),
        Join(pipeline, "data.json"),
        s))
  }

  /** The saved locations with one more, unless it is there already. */
  function AddLocation(locations: seq<string>, location: string): (r: seq<string>)
    ensures location in r
    ensures |locations| <= |r| <= |locations| + 1 && r[..|locations|] == locations
    ensures forall x :: x in r <==> x in locations || x == location
  {
    if location in locations then locations else locations + [location]
  }

  predicate NoDuplicates(s: seq<string>)
  {
    forall i, j :: 0 <= i < j < |s| ==> s[i] != s[j]
  }

  /** Adding locations never lists one twice, and adding one twice is the
      same as adding it once. */
  lemma AddLocationKeepsDistinct(locations: seq<string>, location: string)
    ensures NoDuplicates(locations) ==> NoDuplicates(AddLocation(locations, location))
    ensures AddLocation(AddLocation(locations, location), location) == AddLocation(locations, location)
  {
  }

  /** The main window of `main.py`. */
  class MainWindow {
    const user: User
    /** whether the "Add New Project" button is enabled */
    const addEnabled: bool
    /** `project_locations.json`: None when the file does not exist */
    var locationsFile: Option<seq<string>>

    /** The button is enabled only for an administrator, and the window
        lists its projects at once, which fixes the default location. */
    constructor (user: User, locationsFile: Option<seq<string>>, baseDir: string)
      ensures this.user == user && (addEnabled <==> CanAddProject(user))
      ensures this.locationsFile == if locationsFile.Some? && locationsFile.value != [] then locationsFile
        else Some([Join(baseDir, "Projects")])
    {
      this.user := user;
      addEnabled := CanAddProject(user);
      this.locationsFile := locationsFile;
      new;
      var locs := LoadLocations(baseDir);
    }

    /** The locations `load_projects` scans: the saved ones, or, when none
        are saved, `<base>/Projects` alone, which is then saved. */
    method LoadLocations(baseDir: string) returns (locations: seq<string>)
      modifies this
      ensures locations != []
      ensures old(locationsFile).Some? && old(locationsFile).value != [] ==>
        locations == old(locationsFile).value && locationsFile == old(locationsFile)
      ensures old(locationsFile).None? || old(locationsFile).value == [] ==>
        locations == [Join(baseDir, "Projects")] && locationsFile == Some(locations)
    {
      locations := if locationsFile.Some? then locationsFile.value else [];
      if locations == [] {
        locations := [Join(baseDir, "Projects")];
        locationsFile := Some(locations);
      }
    }

    /** `get_project_locations` */
    function Locations(): seq<string>
      reads this
    {
      if locationsFile.Some? then locationsFile.value else []
    }

    /** `add_project`: `input` is what the accepted form hands back (None
        when it was cancelled).  Without a name or a location nothing
        happens; otherwise the project is laid down and its location saved
        unless it is saved already. */
    method AddProject(input: Option<(string, string, string)>) returns (made: Option<NewProject>)
      modifies this
      ensures made == if input.Some? then MakeProject(input.value.0, input.value.1, input.value.2) else None
      ensures made.None? ==> locationsFile == old(locationsFile)
      ensures made.Some? && input.value.2 in old(Locations()) ==> locationsFile == old(locationsFile)
      ensures made.Some? && input.value.2 !in old(Locations()) ==>
        locationsFile == Some(AddLocation(old(Locations()), input.value.2))
    {
      if input.None? {
        return None;
      }
      var (name, short, location) := input.value;
      made := MakeProject(name, short, location);
      if made.None? {
        return;
      }
      if location !in Locations() {
        locationsFile := Some(Locations() + [location]);
      }
    }
  }

  // --------------------------------------- projects of `App/main.py`

  /** The entry `add_project` of `App/main.py` appends to `projects.json`;
      nothing without a name. */
  function AppProjectEntry(name: string, short: string, projectsDir: string, dataDir: string): (r: Option<ProjectEntry>)
    ensures r.Some? <==> name != ""
    ensures r.Some? ==>
      && r.value.name == name && r.value.short == ShortOrName(name, short) && r.value.short != ""
      && r.value.path == Join(projectsDir, name) && r.value.thumbnail == Join(Join(dataDir, name), "thumbnail.jpg")
  {
    if name == "" then None
    else Some(ProjectEntry(name, ShortOrName(name, short), Join(projectsDir, name), Join(Join(dataDir, name), "thumbnail.jpg")))
  }

  /** The main window of `App/main.py`. */
  class AppMainWindow {
    const user: User
    const addEnabled: bool
    /** `PROJECTS_DIR` and `PROJECT_DATA_DIR` */
    const projectsDir: string
    const dataDir: string
    /** the "projects" list of `projects.json`: None when the file does
        not exist */
    var projectsFile: Option<seq<ProjectEntry>>

    constructor (user: User, projectsDir: string, dataDir: string, projectsFile: Option<seq<ProjectEntry>>)
      ensures this.user == user && (addEnabled <==> CanAddProject(user))
      ensures this.projectsDir == projectsDir && this.dataDir == dataDir && this.projectsFile == projectsFile
    {
      this.user := user;
      addEnabled := CanAddProject(user);
      this.projectsDir := projectsDir;
      this.dataDir := dataDir;
      this.projectsFile := projectsFile;
    }

    /** `add_project`: without a name nothing happens; otherwise the new
        entry goes at the end of the list (a missing file counting as an
        empty list) and the entries before it are untouched. */
    method AddProject(input: Option<(string, string)>) returns (added: Option<ProjectEntry>)
      modifies this
      ensures added == if input.Some? then AppProjectEntry(input.value.0, input.value.1, projectsDir, dataDir) else None
      ensures added.None? ==> projectsFile == old(projectsFile)
      ensures added.Some? ==>
        && projectsFile.Some?
        && projectsFile.value == (if old(projectsFile).Some? then old(projectsFile).value else []) + [added.value]
    {
      if input.None? {
        return None;
      }
      added := AppProjectEntry(input.value.0, input.value.1, projectsDir, dataDir);
      if added.None? {
        return;
      }
      var projects := if projectsFile.Some? then projectsFile.value else [];
      projectsFile := Some(projects + [added.value]);
    }
  }
}
