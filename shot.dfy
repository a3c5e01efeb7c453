/** The shot tab (`shot.py`): shots are the all-digit folders of the
    sequencer folder, listed by number; a new shot takes the next number,
    padded to three digits, and gets its folders, its metadata and, when
    the project short name and the template are known, an animation scene
    file. The tab remembers the last selected shot. */
module Shots {
  import opened Common
  import opened Text
  import opened Sorting
  import opened SceneNaming
  import opened CardTabs
  import opened Memo

  const ShotSubfolders: seq<string> := ["scenefiles", "outputs", "playblast", "textures"]
  const ShotStage := "Animation"
  const ShotMemoKey := "shot_path"

  /** `get_shot_root`: `<project>/03_Production/sequencer`. */
  function ShotRoot(projectRoot: string): string
  {
    Join(Join(projectRoot, "03_Production"), "sequencer")
  }

  // ------------------------------------------------------- numbering

  /** `[int(n) for n in names if n.isdigit()]` */
  function ShotNumbers(names: seq<string>): seq<nat>
  {
    if names == [] then []
    else
      var last := names[|names| - 1];
      ShotNumbers(names[..|names| - 1]) + (if IsDigits(last) then [ParseNat(last)] else [])
  }

  /** `max(existing) + 1 if existing else 1` */
  function NextShotNumber(names: seq<string>): nat
  {
    var nums := ShotNumbers(names);
    if nums == [] then 1 else Max(nums) + 1
  }

  /** `f"{n:03d}"` */
  function ShotName(n: nat): string
  {
    Pad3(n)
  }

  /** The numbers come exactly from the all-digit names. */
  lemma {:induction false} ShotNumbersFromDigitNames(names: seq<string>, v: nat)
    ensures v in ShotNumbers(names) <==> exists i :: 0 <= i < |names| && IsDigits(names[i]) && ParseNat(names[i]) == v
  {
    if names != [] {
      var n := |names| - 1;
      ShotNumbersFromDigitNames(names[..n], v);
      assert forall i :: 0 <= i < n ==> names[..n][i] == names[i];
    }
  }

  /** The next number is above every existing one (1 when there is none),
      and its name, three or more digits, is not taken by any entry. */
  lemma NewShotNameIsFree(names: seq<string>)
    ensures NextShotNumber(names) >= 1
    ensures ShotNumbers(names) == [] ==> NextShotNumber(names) == 1
    ensures forall i :: 0 <= i < |names| && IsDigits(names[i]) ==> ParseNat(names[i]) < NextShotNumber(names)
    ensures IsDigits(ShotName(NextShotNumber(names))) && |ShotName(NextShotNumber(names))| >= 3
    ensures ShotName(NextShotNumber(names)) !in names
  {
    var next := NextShotNumber(names);
    PadRoundTrip(next);
    forall i | 0 <= i < |names| && IsDigits(names[i])
      ensures ParseNat(names[i]) < next
    {
      ShotNumbersFromDigitNames(names, ParseNat(names[i]));
    }
  }

  // --------------------------------------------------------- listing

  /** The names of the listed folders whose names are all digits. */
  function DigitDirs(listing: seq<Entry>): seq<string>
  {
    if listing == [] then []
    else
      var e := listing[|listing| - 1];
      DigitDirs(listing[..|listing| - 1]) + (if e.kind == Dir && IsDigits(e.name) then [e.name] else [])
  }

  /** The sort key `int(name)`. */
  function DigitKey(s: string): nat
  {
    if AllDigits(s) then ParseNat(s) else 0
  }

  predicate ShotLe(a: string, b: string)
  {
    DigitKey(a) <= DigitKey(b)
  }

  /** The shot folders in the order `load_shots` shows them. */
  function ShotList(listing: seq<Entry>): seq<string>
  {
    SortBy(DigitDirs(listing), ShotLe)
  }

  lemma {:induction false} DigitDirsMembers(listing: seq<Entry>, name: string)
    ensures name in DigitDirs(listing) <==> Entry(name, Dir) in listing && IsDigits(name)
  {
    if listing != [] {
      var n := |listing| - 1;
      DigitDirsMembers(listing[..n], name);
      assert listing == listing[..n] + [listing[n]];
    }
  }

  /** `load_shots` lists exactly the all-digit folders, each as often as
      listed, in increasing numeric order. */
  lemma ShotListShape(listing: seq<Entry>)
    ensures Sorted(ShotList(listing), ShotLe)
    ensures multiset(ShotList(listing)) == multiset(DigitDirs(listing))
    ensures forall name :: name in ShotList(listing) <==> Entry(name, Dir) in listing && IsDigits(name)
  {
    SortSorted(DigitDirs(listing), ShotLe);
    forall name ensures name in ShotList(listing) <==> Entry(name, Dir) in listing && IsDigits(name) {
      DigitDirsMembers(listing, name);
      assert name in ShotList(listing) <==> name in multiset(ShotList(listing));
    }
  }

  /** The card of one shot: its number as title, the shot template
      thumbnail (or "") as image, and the shot folder as what it stands for. */
  function ShotCard(root: string, name: string, thumb: string): CardInfo
  {
    CardInfo(name, thumb, "", "", "", thumb, Join(root, name))
  }

  function ShotCards(root: string, names: seq<string>, thumb: string): seq<CardInfo>
  {
    seq(|names|, i requires 0 <= i < |names| => ShotCard(root, names[i], thumb))
  }

  // -------------------------------------------------------- creation

  /** What `add_shot` creates once its folder exists. */
  datatype ShotCreation = ShotCreation(
    folder: string,
    subfolders: seq<string>,
    /** `<shot>.json` in the shot folder */
    metadata: FileWrite,
    /** the animation scene file, when the short name and the template are
        known and the copy succeeded */
    scene: Option<SceneFile>)

  /** The shot `add_shot` makes in `root`, whose entries are `names`.
      `user` is the tab's user name (or ""), `lastUser` the user the
      sidecar records, `stamp` the creation time; `copyOk` is false when
      copying the template fails, which leaves out the scene file and its
      sidecar. */
  function NewShot(root: string, names: seq<string>, user: string, short: string, templateExists: bool, copyOk: bool,
                   lastUser: string, stamp: string): ShotCreation
  {
    var name := ShotName(NextShotNumber(names));
    var folder := Join(root, name);
    ShotCreation(
      folder,
      seq(|ShotSubfolders|, i requires 0 <= i < |ShotSubfolders| => Join(folder, ShotSubfolders[i])),
      FileWrite(Join(folder, name + ".json"), map["name" := Str(name), "user" := Str(user), "created" := Str(stamp)]),
      if short != "" && templateExists && copyOk
      then Some(NewSceneFile(Join(folder, "scenefiles"), short, name, ShotStage, lastUser, stamp, None))
      else None)
  }

  /** A new shot lives in a folder that was not there, with exactly the
      four subfolders, and its metadata names it. */
  lemma NewShotFolders(root: string, names: seq<string>, user: string, short: string, templateExists: bool, copyOk: bool,
                       lastUser: string, stamp: string)
    ensures var s := NewShot(root, names, user, short, templateExists, copyOk, lastUser, stamp);
      var name := ShotName(NextShotNumber(names));
      && s.folder == Join(root, name) && name !in names
      && |s.subfolders| == 4
      && (forall i :: 0 <= i < 4 ==> s.subfolders[i] == Join(s.folder, ShotSubfolders[i]))
      && s.metadata.path == Join(s.folder, name + ".json")
      && s.metadata.content.Keys == {"name", "user", "created"}
      && s.metadata.content["name"] == Str(name) && s.metadata.content["user"] == Str(user)
  {
    NewShotNameIsFree(names);
  }

  /** The scene file of a new shot, `<short>_<shot>_animation.blend`, has a
      same-stem sidecar recording the Animation stage and version "001" and
      no category; it exists exactly when the short name is set and the
      template exists and was copied. */
  lemma NewShotScene(root: string, names: seq<string>, user: string, short: string, templateExists: bool, copyOk: bool,
                     lastUser: string, stamp: string)
    ensures var s := NewShot(root, names, user, short, templateExists, copyOk, lastUser, stamp);
      var name := ShotName(NextShotNumber(names));
      var scenes := Join(Join(root, name), "scenefiles");
      && (s.scene.Some? <==> short != "" && templateExists && copyOk)
      && (s.scene.Some? ==>
            && s.scene.value.blend == Join(scenes, short + "_" + name + "_animation.blend")
            && s.scene.value.sidecar.path == Join(scenes, short + "_" + name + "_animation.json")
            && s.scene.value.sidecar.content["stage"] == Str(ShotStage)
            && s.scene.value.sidecar.content["version"] == Str("001")
            && "type" !in s.scene.value.sidecar.content)
  {
    var name := ShotName(NextShotNumber(names));
    NewSceneFileShape(Join(Join(root, name), "scenefiles"), short, name, ShotStage, lastUser, stamp, None);
    assert SceneStem(short, name, ShotStage) == short + "_" + name + "_animation" by {
      assert Lower(ShotStage) == "animation";
    }
    assert SceneStem(short, name, ShotStage) + BlendExt == short + "_" + name + "_animation.blend";
    assert SceneStem(short, name, ShotStage) + ".json" == short + "_" + name + "_animation.json";
  }

  // ------------------------------------------------------------- tab

  /** `ShotTab`: its cards and selection, kept as the card tabs keep
      theirs, and its `latest_shot.json` memo. */
  class ShotTab {
    /** the project folder ("" when unknown) */
    const projectRoot: string
    /** the sequencer folder, `<project>/03_Production/sequencer` */
    const root: string
    /** the user name the tab was opened with ("" for none) */
    const user: string
    const tab: CardTab
    const memo: LatestPath

    /** The tab starts in list view, loads its memo, and loads the shots
        when it has a project root (`listing` is the sequencer folder's
        content, `dirs` the paths that are existing directories). It uses
        its card tab only for the cards, their selection and their view; it
        has no folder of its own. */
    constructor (projectRoot: string, user: string, stored: Option<Json>, dirs: set<string>, listing: seq<Entry>,
                 thumb: string)
      ensures this.projectRoot == projectRoot && root == ShotRoot(projectRoot) && this.user == user
      ensures fresh(tab) && fresh(memo) && tab.viewMode == ListView
      ensures memo.key == ShotMemoKey && memo.remembered == Recall(stored, ShotMemoKey, dirs) && memo.stored == stored
      ensures projectRoot == "" ==> tab.cards == []
      ensures projectRoot != "" ==>
        Infos(tab.cards) == ShotCards(root, ShotList(listing), thumb) && SelectedOnly(tab.cards, memo.Target())
    {
      this.projectRoot := projectRoot;
      root := ShotRoot(projectRoot);
      this.user := user;
      var t := new CardTab("");
      t.SetViewMode(ListView);
      tab := t;
      var m := new LatestPath(ShotMemoKey, stored);
      m.Load(dirs);
      memo := m;
      new;
      if projectRoot != "" {
        LoadShots(listing, thumb);
      }
    }

    /** `load_shots`: one list-view card per shot folder, in number order;
        the remembered shot, if non-empty, is selected and nothing else. */
    method LoadShots(listing: seq<Entry>, thumb: string)
      modifies tab, tab.cards
      ensures Infos(tab.cards) == ShotCards(root, ShotList(listing), thumb)
      ensures fresh(set c | c in tab.cards) && forall c :: c in tab.cards ==> c.view == ListView
      ensures SelectedOnly(tab.cards, memo.Target())
      ensures tab.viewMode == old(tab.viewMode) && tab.page == old(tab.page) && tab.folderPath == old(tab.folderPath)
    {
      tab.Clear();
      tab.AppendAll(ShotCards(root, ShotList(listing), thumb), ListView);
      var target := memo.Target();
      if target.Some? {
        var found := tab.SelectTarget(target.value);
      }
    }

    /** `add_shot`: when the new folder cannot be made (`created` false)
        nothing changes; otherwise the shot is created, its card appended as
        the only selected one, and its folder remembered. */
    method AddShot(listing: seq<Entry>, created: bool, short: string, templateExists: bool, copyOk: bool,
                   userFile: Option<Json>, stamp: string, thumb: string, writable: bool)
      returns (made: Option<ShotCreation>)
      modifies tab, tab.cards, memo
      ensures made == if created then Some(NewShot(root, Names(listing), user, short, templateExists, copyOk, LatestUser(projectRoot, userFile), stamp)) else None
      ensures !created ==> tab.cards == old(tab.cards) && memo.remembered == old(memo.remembered) && memo.stored == old(memo.stored)
      ensures created ==>
        && |tab.cards| == |old(tab.cards)| + 1 && tab.cards[..|old(tab.cards)|] == old(tab.cards)
        && tab.cards[|tab.cards| - 1].Info() == ShotCard(root, ShotName(NextShotNumber(Names(listing))), thumb)
        && OnlyLastSelected(tab.cards)
        && fresh(tab.cards[|tab.cards| - 1]) && tab.cards[|tab.cards| - 1].view == ListView
        && forall c :: c in old(tab.cards) ==> c.view == old(c.view)
      ensures !created ==> forall c :: c in tab.cards ==> c.selected == old(c.selected) && c.view == old(c.view)
      ensures tab.viewMode == old(tab.viewMode) && tab.page == old(tab.page) && tab.folderPath == old(tab.folderPath)
      ensures created && (old(memo.remembered) != Some(made.value.folder) && writable) ==>
        memo.remembered == Some(made.value.folder) && memo.stored == Some(map[memo.key := Str(made.value.folder)])
      ensures created && (old(memo.remembered) == Some(made.value.folder) || !writable) ==>
        memo.remembered == old(memo.remembered) && memo.stored == old(memo.stored)
    {
      if !created {
        return None;
      }
      var plan := NewShot(root, Names(listing), user, short, templateExists, copyOk, LatestUser(projectRoot, userFile), stamp);
      var name := ShotName(NextShotNumber(Names(listing)));
      var card := tab.Append(ShotCard(root, name, thumb), ListView);
      tab.ClearSelection();
      card.SetSelected(true);
      memo.Write(plan.folder, writable);
      return Some(plan);
    }

    /** `get_selected_widget` */
    method SelectedShot() returns (r: Option<Card>)
      ensures r == FirstSelected(tab.cards)
    {
      r := tab.FindSelected();
    }
  }
}
