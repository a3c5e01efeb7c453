/** The project dialogs of `project.py`: the folder layout a new project
    gets, the add-project form's checks, and the project picker that lists
    every folder holding a complete `00_Pipeline/project.json` in a grid of
    three columns. */
module Projects {
  import opened Common
  import opened Text
  import opened Sorting
  import Memo

  /** The subfolders every project gets, in creation order. */
  const Subfolders: seq<string> := ["00_Pipeline", "01_Management", "02_Designs", "03_Production", "04_Resources"]
  const PipelineFolder := "00_Pipeline"
  const ProjectFileName := "project.json"
  const ThumbName := "thumbnail.png"
  /** the key of `latest_projects_root.json` */
  const RootKey := "projects_root"
  /** the number of columns of the project grid */
  const Cols: nat := 3

  // -------------------------------------------------------- creation

  /** `<base>/<year>_<name>` with the name stripped. */
  function ProjectFolder(base: string, year: string, name: string): string
  {
    Join(base, year + "_" + Strip(name))
  }

  /** `<project>/00_Pipeline/project.json` */
  function PipelineJson(folder: string): string
  {
    Join(Join(folder, PipelineFolder), ProjectFileName)
  }

  /** A project record holds all three keys the picker asks for. */
  predicate HasProjectKeys(data: Json)
  {
    "name" in data && "short" in data && "path" in data
  }

  /** The record `project.json` holds. */
  function ProjectRecord(name: string, short: string, path: string): (r: Json)
    ensures HasProjectKeys(r) && r.Keys == {"name", "short", "path"}
    ensures r["name"] == Str(name) && r["short"] == Str(short) && r["path"] == Str(path)
  {
    map["name" := Str(name), "short" := Str(short), "path" := Str(path)]
  }

  /** What `create_project_folders` does: the five subfolders, a copy of
      the template thumbnail when there is one, and `project.json`; the
      returned path is None when writing `project.json` raised. */
  datatype ProjectCreation = ProjectCreation(
    dirs: seq<string>,
    thumbnail: Option<string>,
    jsonFile: string,
    written: Option<Json>,
    path: Option<string>)

  function FolderPaths(folder: string): seq<string>
  {
    seq(|Subfolders|, i requires 0 <= i < |Subfolders| => Join(folder, Subfolders[i]))
  }

  /** `create_project_folders(base, name, short)`.  The year of the clock
      and `os.path.abspath` (which depends on the working directory) are
      inputs. */
  function CreateProjectFolders(base: string, name: string, short: string, year: string, abs: string -> string,
                                templateExists: bool, copyOk: bool, writeOk: bool): (r: ProjectCreation)
    ensures r.thumbnail.Some? <==> templateExists && copyOk
    ensures r.written.Some? <==> writeOk
    ensures r.path.Some? <==> writeOk
  {
    var folder := ProjectFolder(base, year, name);
    ProjectCreation(
      FolderPaths(folder),
      if templateExists && copyOk then Some(Join(folder, ThumbName)) else None,
      PipelineJson(folder),
      if writeOk then Some(ProjectRecord(Strip(name), Strip(short), abs(folder))) else None,
      if writeOk then Some(abs(folder)) else None)
  }

  /** `project.json` sits in the first subfolder and holds exactly the
      stripped name and short and the absolute project folder, which is
      also what the function returns. */
  lemma CreatedRecord(base: string, name: string, short: string, year: string, abs: string -> string,
                      templateExists: bool, copyOk: bool)
    ensures var r := CreateProjectFolders(base, name, short, year, abs, templateExists, copyOk, true);
      && r.jsonFile == Join(r.dirs[0], ProjectFileName)
      && r.written.value.Keys == {"name", "short", "path"}
      && r.written.value["name"] == Str(Strip(name)) && r.written.value["short"] == Str(Strip(short))
      && r.written.value["path"] == Str(r.path.value) && r.path.value == abs(ProjectFolder(base, year, name))
  {
  }

  /** Exactly the five subfolders are made: five different folders, each
      directly inside the project folder. */
  lemma CreatedFoldersAreDistinct(base: string, name: string, short: string, year: string, abs: string -> string,
                                  templateExists: bool, copyOk: bool, writeOk: bool)
    ensures var r := CreateProjectFolders(base, name, short, year, abs, templateExists, copyOk, writeOk);
      && |r.dirs| == |Subfolders|
      && (forall i :: 0 <= i < |r.dirs| ==> r.dirs[i] == Join(ProjectFolder(base, year, name), Subfolders[i]))
      && forall i, j :: 0 <= i < j < |r.dirs| ==> r.dirs[i] != r.dirs[j]
  {
    var folder := ProjectFolder(base, year, name);
    var dirs := FolderPaths(folder);
    SubfoldersDistinct();
    forall i, j | 0 <= i < j < |dirs| ensures dirs[i] != dirs[j] {
      if dirs[i] == dirs[j] {
        JoinInjective(folder, Subfolders[i], Subfolders[j]);
      }
    }
  }

  lemma SubfoldersDistinct()
    ensures forall i, j :: 0 <= i < j < |Subfolders| ==> Subfolders[i] != Subfolders[j]
  {
    forall i, j | 0 <= i < j < |Subfolders| ensures Subfolders[i] != Subfolders[j] {
      assert Subfolders[i][1] == "01234"[i] && Subfolders[j][1] == "01234"[j];
    }
  }

  // ---------------------------------------------------------- dialog

  /** What the add-project form hands back once accepted. */
  datatype ProjectRequest = ProjectRequest(name: string, short: string, basePath: string)

  /** The answer of `accept`: the first check that failed, or the data. */
  datatype AcceptOutcome = NeedName | NeedShort | NeedBase | Accepted(data: ProjectRequest)

  /** `AddProjectDialog.accept`: name, then short, then an existing base
      folder, each stripped; `dirs` are the paths that are directories.
      The first failure is the answer, and the form is accepted exactly
      when all three checks pass. */
  function CheckProject(nameText: string, shortText: string, baseText: string, dirs: set<string>): (r: AcceptOutcome)
    ensures r == NeedName <==> Strip(nameText) == []
    ensures r == NeedShort <==> Strip(nameText) != [] && Strip(shortText) == []
    ensures r == NeedBase <==> Strip(nameText) != [] && Strip(shortText) != [] && (Strip(baseText) == [] || Strip(baseText) !in dirs)
    ensures r.Accepted? <==> Strip(nameText) != [] && Strip(shortText) != [] && Strip(baseText) != [] && Strip(baseText) in dirs
    ensures r.Accepted? ==> r.data == ProjectRequest(Strip(nameText), Strip(shortText), Strip(baseText))
  {
    var name := Strip(nameText);
    var short := Strip(shortText);
    var base := Strip(baseText);
    if name == [] then NeedName
    else if short == [] then NeedShort
    else if base == [] || base !in dirs then NeedBase
    else Accepted(ProjectRequest(name, short, base))
  }

  class AddProjectDialog {
    var nameText: string
    var shortText: string
    var baseText: string
    /** `project_data`, absent until the form is accepted */
    var projectData: Option<ProjectRequest>
    /** whether the dialog closed with OK */
    var accepted: bool

    constructor (base: string)
      ensures nameText == "" && shortText == "" && baseText == base
      ensures projectData.None? && !accepted
    {
      nameText := "";
      shortText := "";
      baseText := base;
      projectData := None;
      accepted := false;
    }

    /** `accept`: on the first failed check the form stays open and keeps
        what it had; otherwise it stores the stripped fields and closes. */
    method Accept(dirs: set<string>) returns (outcome: AcceptOutcome)
      modifies this
      ensures outcome == CheckProject(nameText, shortText, baseText, dirs)
      ensures nameText == old(nameText) && shortText == old(shortText) && baseText == old(baseText)
      ensures outcome.Accepted? ==> projectData == Some(outcome.data) && accepted
      ensures !outcome.Accepted? ==> projectData == old(projectData) && accepted == old(accepted)
    {
      outcome := CheckProject(nameText, shortText, baseText, dirs);
      if outcome.Accepted? {
        projectData := Some(outcome.data);
        accepted := true;
      }
    }

    /** `get_data` */
    function GetData(): Option<ProjectRequest>
      reads this
    {
      projectData
    }
  }

  // ---------------------------------------------------------- picker

  /** One tile of the picker: the project's name, its thumbnail and its
      cell. */
  datatype GridItem = GridItem(title: string, thumb: string, row: nat, col: nat)

  /** Whether an entry of the root is a project folder the picker shows. */
  predicate IsProject(root: string, files: map<string, Json>, e: Entry)
  {
    var f := PipelineJson(Join(root, e.name));
    e.kind == Dir && f in files && HasProjectKeys(files[f])
  }

  /** The record a project folder's `project.json` holds. */
  function RecordOf(root: string, files: map<string, Json>, e: Entry): Json
  {
    var f := PipelineJson(Join(root, e.name));
    if f in files then files[f] else map[]
  }

  /** The records `populate` collects: one per folder of the root whose
      `project.json` has a name, a short and a path, in sorted folder
      order.  `files` are the JSON files that exist and parse. */
  function ProjectList(root: string, listing: seq<Entry>, files: map<string, Json>): seq<Json>
  {
    MapIf(SortedListing(listing), e => IsProject(root, files, e), e => RecordOf(root, files, e))
  }

  /** A record is listed exactly when some folder of the root holds it
      with all three keys. */
  lemma ProjectListMembers(root: string, listing: seq<Entry>, files: map<string, Json>, data: Json)
    ensures data in ProjectList(root, listing, files) <==>
      exists name :: Entry(name, Dir) in listing && PipelineJson(Join(root, name)) in files
        && files[PipelineJson(Join(root, name))] == data && HasProjectKeys(data)
  {
    var s := SortedListing(listing);
    SortedListingShape(listing);
    MapIfMembers(s, e => IsProject(root, files, e), e => RecordOf(root, files, e), data);
    if data in ProjectList(root, listing, files) {
      var i :| 0 <= i < |s| && IsProject(root, files, s[i]) && RecordOf(root, files, s[i]) == data;
      assert Entry(s[i].name, Dir) == s[i];
    } else {
      forall name | Entry(name, Dir) in listing
        ensures !(PipelineJson(Join(root, name)) in files && files[PipelineJson(Join(root, name))] == data && HasProjectKeys(data))
      {
        var e := Entry(name, Dir);
        var i :| 0 <= i < |s| && s[i] == e;
        assert !(IsProject(root, files, s[i]) && RecordOf(root, files, s[i]) == data);
      }
    }
  }

  /** The tile of the i-th project: row i div 3, column i mod 3, its
      `thumbnail.png` when that exists and the template otherwise. */
  function Tile(data: Json, i: nat, existing: set<string>, template: string): GridItem
  {
    var custom := Join(StrField(data, "path"), ThumbName);
    GridItem(StrField(data, "name"), if custom in existing then custom else template, i / Cols, i % Cols)
  }

  function Tiles(projects: seq<Json>, existing: set<string>, template: string): seq<GridItem>
  {
    seq(|projects|, i requires 0 <= i < |projects| => Tile(projects[i], i, existing, template))
  }

  /** The tiles fill the grid row by row, three to a row: the i-th tile
      sits at the cell whose row-major index is i, so no two tiles share a
      cell. */
  lemma TilesFillRowMajor(projects: seq<Json>, existing: set<string>, template: string)
    ensures forall i :: 0 <= i < |projects| ==>
      Tiles(projects, existing, template)[i].col < Cols
      && Cols * Tiles(projects, existing, template)[i].row + Tiles(projects, existing, template)[i].col == i
    ensures forall i, j :: 0 <= i < j < |projects| ==>
      (Tiles(projects, existing, template)[i].row, Tiles(projects, existing, template)[i].col)
      != (Tiles(projects, existing, template)[j].row, Tiles(projects, existing, template)[j].col)
  {
    var t := Tiles(projects, existing, template);
    forall i | 0 <= i < |projects| ensures t[i].col < Cols && Cols * t[i].row + t[i].col == i {
      assert t[i] == Tile(projects[i], i, existing, template);
    }
  }

  /** A project made under the picker's root is listed when the root is
      scanned again, with its stripped name on the tile. */
  lemma CreatedProjectIsListed(root: string, name: string, short: string, year: string, abs: string -> string,
                               templateExists: bool, copyOk: bool, listing: seq<Entry>, files: map<string, Json>,
                               existing: set<string>, template: string)
    requires Entry(year + "_" + Strip(name), Dir) in listing
    requires var r := CreateProjectFolders(root, name, short, year, abs, templateExists, copyOk, true);
      r.jsonFile in files && files[r.jsonFile] == r.written.value
    ensures var r := CreateProjectFolders(root, name, short, year, abs, templateExists, copyOk, true);
      exists i :: 0 <= i < |ProjectList(root, listing, files)|
        && ProjectList(root, listing, files)[i] == r.written.value
        && Tiles(ProjectList(root, listing, files), existing, template)[i].title == Strip(name)
  {
    var r := CreateProjectFolders(root, name, short, year, abs, templateExists, copyOk, true);
    ProjectListMembers(root, listing, files, r.written.value);
    var ps := ProjectList(root, listing, files);
    var i :| 0 <= i < |ps| && ps[i] == r.written.value;
    assert StrField(ps[i], "name") == Strip(name);
  }

  /** The first loop of `populate`: the records of the complete project
      folders among `entries`, in their order. */
  method CollectProjects(root: string, entries: seq<Entry>, files: map<string, Json>) returns (projects: seq<Json>)
    ensures projects == MapIf(entries, e => IsProject(root, files, e), e => RecordOf(root, files, e))
  {
    projects := [];
    for k := 0 to |entries|
      invariant projects == MapIf(entries[..k], e => IsProject(root, files, e), e => RecordOf(root, files, e))
    {
      assert entries[..k + 1][..k] == entries[..k];
      var proj := Join(root, entries[k].name);
      if entries[k].kind != Dir {
        continue;
      }
      var f := PipelineJson(proj);
      if f !in files {
        continue;
      }
      var data := files[f];
      if HasProjectKeys(data) {
        projects := projects + [data];
      }
    }
    assert entries[..|entries|] == entries;
  }

  /** The second loop of `populate`: one tile per record, placed by
      `divmod(i, 3)`. */
  method LayOut(projects: seq<Json>, existing: set<string>, template: string) returns (grid: seq<GridItem>)
    ensures grid == Tiles(projects, existing, template)
  {
    grid := [];
    for i := 0 to |projects|
      invariant grid == Tiles(projects[..i], existing, template)
    {
      var custom := Join(StrField(projects[i], "path"), ThumbName);
      var thumb := if custom in existing then custom else template;
      var r, c := i / Cols, i % Cols;
      grid := grid + [GridItem(StrField(projects[i], "name"), thumb, r, c)];
    }
    assert projects[..|projects|] == projects;
  }

  /** `ProjectSelectionDialog` */
  class ProjectSelection {
    /** `TEMPLATE_THUMB` */
    const template: string
    /** the folder whose subfolders are the projects; "" when none */
    var projectsRoot: string
    var projects: seq<Json>
    var grid: seq<GridItem>
    /** the project a double click chose */
    var selected: Option<Json>

    /** The dialog starts from the remembered root, when the memo file
        names an existing directory, and lists it at once. */
    constructor (template: string, stored: Option<Json>, dirs: set<string>, listing: seq<Entry>,
                 files: map<string, Json>, existing: set<string>)
      ensures this.template == template && selected.None?
      ensures projectsRoot == match Memo.Recall(stored, RootKey, dirs) case Some(p) => p case None => ""
      ensures projects == (if projectsRoot != "" then ProjectList(projectsRoot, listing, files) else [])
      ensures grid == Tiles(projects, existing, template)
    {
      this.template := template;
      selected := None;
      projects := [];
      grid := [];
      var root := Memo.Recall(stored, RootKey, dirs);
      projectsRoot := if root.Some? then root.value else "";
      new;
      if projectsRoot != "" {
        Populate(dirs, listing, files, existing);
      }
    }

    /** `on_choose_root`: an empty choice changes nothing; otherwise the
        root is set, remembered in the memo file when that can be written,
        and listed. */
    method ChooseRoot(directory: string, writable: bool, dirs: set<string>, listing: seq<Entry>,
                      files: map<string, Json>, existing: set<string>) returns (written: Option<Json>)
      modifies this
      ensures written == if directory != "" && writable then Some(map[RootKey := Str(directory)]) else None
      ensures directory == "" ==> projectsRoot == old(projectsRoot) && projects == old(projects) && grid == old(grid)
      ensures directory != "" ==> projectsRoot == directory
      ensures directory != "" ==>
        projects == (if directory in dirs then ProjectList(directory, listing, files) else [])
        && grid == Tiles(projects, existing, template)
      ensures selected == old(selected)
    {
      if directory == "" {
        return None;
      }
      projectsRoot := directory;
      written := if writable then Some(map[RootKey := Str(directory)]) else None;
      Populate(dirs, listing, files, existing);
    }

    /** `populate`: clears the grid, then, when the root is an existing
        directory, collects the complete project records of its folders in
        name order and lays out one tile per record. */
    method Populate(dirs: set<string>, listing: seq<Entry>, files: map<string, Json>, existing: set<string>)
      modifies this
      ensures projectsRoot == old(projectsRoot) && selected == old(selected)
      ensures projects == (if projectsRoot != "" && projectsRoot in dirs then ProjectList(projectsRoot, listing, files) else [])
      ensures grid == Tiles(projects, existing, template)
    {
      grid := [];
      projects := [];
      if projectsRoot == "" || projectsRoot !in dirs {
        return;
      }
      projects := CollectProjects(projectsRoot, SortedListing(listing), files);
      grid := LayOut(projects, existing, template);
    }

    /** The double click on the tile of the i-th project: chooses it and
        returns what `latest_project.json` then holds (None when that file
        cannot be written). */
    method Pick(i: nat, writable: bool) returns (written: Option<Json>)
      requires i < |projects|
      modifies this
      ensures selected == Some(old(projects)[i])
      ensures written == if writable then Some(old(projects)[i]) else None
      ensures projectsRoot == old(projectsRoot) && projects == old(projects) && grid == old(grid)
    {
      selected := Some(projects[i]);
      written := if writable then Some(projects[i]) else None;
    }

    /** `get_selected` */
    function GetSelected(): Option<Json>
      reads this
    {
      selected
    }
  }

  /** The root chosen in one session is where the next session's picker
      starts, as long as it is still a directory. */
  lemma ChosenRootIsRecalled(directory: string, dirs: set<string>)
    requires directory != ""
    ensures Memo.Recall(Some(map[RootKey := Str(directory)]), RootKey, dirs) == if directory in dirs then Some(directory) else None
  {
    Memo.WriteThenRecall(RootKey, directory, dirs);
  }
}
