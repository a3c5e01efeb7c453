/** The project lobby of `App/core/lobby.py`: a four-column grid whose
    first cell is the "New Project" button, followed by one button per
    project folder, and the `last_project.json` memo. */
module Lobby {
  import opened Common
  import Memo

  /** the number of columns of the lobby grid */
  const Cols: nat := 4
  const DataName := "data.json"
  const ThumbName := "thumbnail.jpg"
  const NewProjectText := "New Project"
  /** the key of `last_project.json` */
  const LastProjectKey := "last_project"

  /** What a button shows: the project's thumbnail, the default project
      icon, or no icon. */
  datatype Icon = Thumbnail(path: string) | DefaultIcon | NoIcon

  /** One button of the grid with the folder it opens ("" for the "New
      Project" button). */
  datatype Button = Button(text: string, icon: Icon, path: string, row: nat, col: nat)

  /** What the disk looks like to `load_projects`: the paths that exist
      and the `data.json` files that cannot be written. */
  datatype Disk = Disk(existing: set<string>, unwritable: set<string>)

  /** A folder is shown when its `data.json` exists or can be created. */
  predicate Shown(dir: string, disk: Disk, e: Entry)
  {
    var data := Join(Join(dir, e.name), DataName);
    e.kind == Dir && (data in disk.existing || data !in disk.unwritable)
  }

  /** The folders the lobby shows, in listing order. */
  function ShownNames(dir: string, listing: seq<Entry>, disk: Disk): seq<string>
  {
    MapIf(listing, e => Shown(dir, disk, e), (e: Entry) => e.name)
  }

  /** A name is shown exactly when it is a folder of the listing whose
      `data.json` exists or can be created. */
  lemma ShownNamesMembers(dir: string, listing: seq<Entry>, disk: Disk, name: string)
    ensures name in ShownNames(dir, listing, disk) <==>
      Entry(name, Dir) in listing
      && (Join(Join(dir, name), DataName) in disk.existing || Join(Join(dir, name), DataName) !in disk.unwritable)
  {
    MapIfMembers(listing, e => Shown(dir, disk, e), (e: Entry) => e.name, name);
    if Entry(name, Dir) in listing {
      var i :| 0 <= i < |listing| && listing[i] == Entry(name, Dir);
      assert listing[i].name == name;
    }
  }

  /** The icon of a project: its `thumbnail.jpg`, else the default project
      icon when that exists, else none.  (The "(No Icon)" caption the
      source sets in the last case is overwritten by the plain name.) */
  function IconOf(path: string, disk: Disk, defaultIcon: string): Icon
  {
    var thumb := Join(path, ThumbName);
    if thumb in disk.existing then Thumbnail(thumb)
    else if defaultIcon in disk.existing then DefaultIcon
    else NoIcon
  }

  /** The cell of the k-th project shown: the "New Project" button takes
      cell 0. */
  function Cell(k: nat): (nat, nat)
  {
    ((k + 1) / Cols, (k + 1) % Cols)
  }

  function ProjectButtons(dir: string, names: seq<string>, disk: Disk, defaultIcon: string): seq<Button>
  {
    seq(|names|, k requires 0 <= k < |names| =>
      Button(names[k], IconOf(Join(dir, names[k]), disk, defaultIcon), Join(dir, names[k]), Cell(k).0, Cell(k).1))
  }

  /** One more shown project adds its button at the next cell. */
  lemma ButtonsStep(dir: string, names: seq<string>, name: string, disk: Disk, defaultIcon: string)
    ensures ProjectButtons(dir, names + [name], disk, defaultIcon) == ProjectButtons(dir, names, disk, defaultIcon)
      + [Button(name, IconOf(Join(dir, name), disk, defaultIcon), Join(dir, name), Cell(|names|).0, Cell(|names|).1)]
  {
  }

  /** The cells fill the grid row by row after the "New Project" button:
      the k-th project sits at row-major index k + 1, so no project shares a
      cell with the button or with another project. */
  lemma CellsFillRowMajor(k: nat, m: nat)
    ensures Cell(k).1 < Cols && Cols * Cell(k).0 + Cell(k).1 == k + 1
    ensures Cell(k) != (0, 0)
    ensures k != m ==> Cell(k) != Cell(m)
  {
  }

  /** A step of the source's counters: the column advances and wraps to 0
      with the row advancing after column 3. */
  lemma CellStep(k: nat)
    ensures Cell(k + 1) == if Cell(k).1 + 1 > 3 then (Cell(k).0 + 1, 0) else (Cell(k).0, Cell(k).1 + 1)
  {
  }

  /** A `data.json` the lobby creates: the one of a folder that has none
      and can get one. */
  predicate Creates(dir: string, disk: Disk, e: Entry)
  {
    var data := Join(Join(dir, e.name), DataName);
    e.kind == Dir && data !in disk.existing && data !in disk.unwritable
  }

  /** The `data.json` files the lobby creates, in listing order. */
  function CreatedFiles(dir: string, listing: seq<Entry>, disk: Disk): seq<string>
  {
    MapIf(listing, e => Creates(dir, disk, e), (e: Entry) => Join(Join(dir, e.name), DataName))
  }

  /** The loop of `load_projects` over the projects folder: the buttons it
      places with its row and column counters, the `data.json` files it
      creates, and whether it found a project. */
  method ScanProjects(dir: string, defaultIcon: string, listing: seq<Entry>, disk: Disk)
    returns (buttons: seq<Button>, created: seq<string>, found: bool)
    ensures buttons == ProjectButtons(dir, ShownNames(dir, listing, disk), disk, defaultIcon)
    ensures created == CreatedFiles(dir, listing, disk)
    ensures found <==> ShownNames(dir, listing, disk) != []
  {
    buttons, created, found := [], [], false;
    var row, col := 0, 1;
    ghost var shown: seq<string> := [];
    for i := 0 to |listing|
      invariant shown == ShownNames(dir, listing[..i], disk)
      invariant buttons == ProjectButtons(dir, shown, disk, defaultIcon)
      invariant created == CreatedFiles(dir, listing[..i], disk)
      invariant (row, col) == Cell(|shown|)
      invariant found <==> shown != []
    {
      assert listing[..i + 1][..i] == listing[..i];
      var name := listing[i].name;
      var path := Join(dir, name);
      if listing[i].kind != Dir {
        continue;
      }
      var data := Join(path, DataName);
      if data !in disk.existing {
        if data in disk.unwritable {
          continue;
        }
        created := created + [data];
      }
      found := true;
      var icon := IconOf(path, disk, defaultIcon);
      ghost var before := shown;
      shown := shown + [name];
      ButtonsStep(dir, before, name, disk, defaultIcon);
      buttons := buttons + [Button(name, icon, path, row, col)];
      CellStep(|before|);
      col := col + 1;
      if col > 3 {
        col := 0;
        row := row + 1;
      }
    }
    assert listing[..|listing|] == listing;
  }

  class Lobby {
    /** `projects_dir` */
    const projectsDir: string
    /** the default project icon under the resources */
    const defaultIcon: string
    var grid: seq<Button>
    /** whether the "no existing projects" notice was shown */
    var notice: bool
    /** the `data.json` files the last listing created */
    var created: seq<string>
    /** `last_project.json` */
    var lastProject: Option<Json>

    /** `__init__`: makes the projects folder when it is missing (it is then
        empty, so `listing` counts only when `dirExists`), and loads the grid. */
    constructor (projectsDir: string, defaultIcon: string, lastProject: Option<Json>,
                 dirExists: bool, listing: seq<Entry>, disk: Disk)
      ensures this.projectsDir == projectsDir && this.defaultIcon == defaultIcon && this.lastProject == lastProject
      ensures var found := if dirExists then listing else [];
        && grid == [Button(NewProjectText, NoIcon, "", 0, 0)]
             + ProjectButtons(projectsDir, ShownNames(projectsDir, found, disk), disk, defaultIcon)
        && (notice <==> ShownNames(projectsDir, found, disk) == [])
        && created == CreatedFiles(projectsDir, found, disk)
    {
      this.projectsDir := projectsDir;
      this.defaultIcon := defaultIcon;
      this.lastProject := lastProject;
      grid := [];
      notice := false;
      created := [];
      new;
      LoadProjects(true, if dirExists then listing else [], disk);
    }

    /** `load_projects`: the "New Project" button at (0, 0); then, when the
        projects folder exists, one button per shown folder in listing
        order, creating each missing `data.json` on the way, and the notice
        exactly when no folder was shown. */
    method LoadProjects(dirExists: bool, listing: seq<Entry>, disk: Disk)
      modifies this
      ensures lastProject == old(lastProject)
      ensures !dirExists ==> grid == [Button(NewProjectText, NoIcon, "", 0, 0)] && !notice && created == []
      ensures dirExists ==>
        && grid == [Button(NewProjectText, NoIcon, "", 0, 0)]
             + ProjectButtons(projectsDir, ShownNames(projectsDir, listing, disk), disk, defaultIcon)
        && (notice <==> ShownNames(projectsDir, listing, disk) == [])
        && created == CreatedFiles(projectsDir, listing, disk)
    {
      grid := [Button(NewProjectText, NoIcon, "", 0, 0)];
      created := [];
      notice := false;
      if !dirExists {
        return;
      }
      var buttons, made, found := ScanProjects(projectsDir, defaultIcon, listing, disk);
      grid := grid + buttons;
      created := made;
      notice := !found;
    }

    /** `open_project`: remembers the folder. */
    method OpenProject(path: string)
      modifies this
      ensures lastProject == Some(map[LastProjectKey := Str(path)])
      ensures grid == old(grid) && notice == old(notice) && created == old(created)
    {
      lastProject := Some(map[LastProjectKey := Str(path)]);
    }

    /** `get_last_project`: the remembered folder when it is non-empty and
        still exists. */
    function GetLastProject(existing: set<string>): Option<string>
      reads this
    {
      Memo.Recall(lastProject, LastProjectKey, existing)
    }
  }

  /** The folder opened last is offered again while it exists. */
  lemma OpenedProjectIsLast(path: string, existing: set<string>)
    ensures Memo.Recall(Some(map[LastProjectKey := Str(path)]), LastProjectKey, existing)
      == if path != "" && path in existing then Some(path) else None
  {
    Memo.WriteThenRecall(LastProjectKey, path, existing);
  }
}
