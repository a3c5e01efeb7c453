/** The asset tab (`asset.py`): assets live in
    `<project>/03_Production/assets/<type>/<name>`; the tab shows one
    collapsible section per type folder holding one list-view card per
    asset folder, both in name order. A new asset gets its folders, its
    metadata and, when the project short name and the template are known, a
    modeling scene file; the tab remembers the last selected asset. */
module AssetTabs {
  import opened Common
  import opened Text
  import opened Sorting
  import opened SceneNaming
  import opened CardTabs
  import opened Memo

  /** The types the "add asset" dialog offers, in order. */
  const AssetTypes: seq<string> := ["character", "prop", "vfx"]
  const AssetSubfolders: seq<string> := ["scenefiles", "outputs", "textures"]
  const AssetStage := "Modeling"
  const AssetMemoKey := "asset_path"

  /** `get_asset_root` */
  function AssetRoot(projectRoot: string): string
  {
    Join(Join(projectRoot, "03_Production"), "assets")
  }

  // ---------------------------------------------------------- dialog

  /** `AddAssetDialog`: a name field and a type choice. */
  class AddAssetDialog {
    var nameText: string
    /** the index of the chosen type in `AssetTypes` */
    var typeChoice: nat
    var assetName: Option<string>
    var assetType: Option<string>
    /** whether the dialog closed with OK */
    var accepted: bool

    predicate Valid()
      reads this
    {
      typeChoice < |AssetTypes|
    }

    constructor ()
      ensures Valid() && nameText == "" && typeChoice == 0
      ensures assetName.None? && assetType.None? && !accepted
    {
      nameText := "";
      typeChoice := 0;
      assetName := None;
      assetType := None;
      accepted := false;
    }

    /** `accept`: records the stripped name and the chosen type; the dialog
        closes only when the name has a character other than white space. */
    method Accept()
      requires Valid()
      modifies this
      ensures Valid() && nameText == old(nameText) && typeChoice == old(typeChoice)
      ensures assetName == Some(Strip(nameText)) && assetType == Some(AssetTypes[typeChoice])
      ensures accepted <==> old(accepted) || Strip(nameText) != []
    {
      assetName := Some(Strip(nameText));
      assetType := Some(AssetTypes[typeChoice]);
      if Strip(nameText) == [] {
        return;
      }
      accepted := true;
    }
  }

  // --------------------------------------------------------- listing

  /** What `load_assets` finds on disk: whether the asset root is a folder,
      its entries, the entries of each type folder, and the paths of the
      thumbnails that exist. */
  datatype AssetTree = AssetTree(
    rootIsDir: bool,
    types: seq<Entry>,
    assets: map<string, seq<Entry>>,
    thumbs: set<string>)

  /** The entries of a type folder (none when it was not listed). */
  function ListingOf(tree: AssetTree, assetType: string): seq<Entry>
  {
    if assetType in tree.assets then tree.assets[assetType] else []
  }

  /** The type folders, in name order; none when the root is not a folder. */
  function TypeDirs(tree: AssetTree): seq<string>
  {
    if tree.rootIsDir then DirNames(SortedListing(tree.types)) else []
  }

  /** The asset folders of a type folder, in name order. */
  function AssetDirs(tree: AssetTree, assetType: string): seq<string>
  {
    DirNames(SortedListing(ListingOf(tree, assetType)))
  }

  function AssetPath(root: string, assetType: string, name: string): string
  {
    Join(Join(root, assetType), name)
  }

  /** The card of one asset: its name as title, its `thumbnail.png` when
      that exists (the template thumbnail otherwise) as image, and the asset
      folder as what it stands for. */
  function AssetCard(root: string, tree: AssetTree, template: string, assetType: string, name: string): CardInfo
  {
    var dir := AssetPath(root, assetType, name);
    var custom := Join(dir, "thumbnail.png");
    var thumb := if custom in tree.thumbs then custom else template;
    CardInfo(name, thumb, "", "", "", thumb, dir)
  }

  /** The cards of the section of one type. */
  function TypeCards(root: string, tree: AssetTree, template: string, assetType: string, names: seq<string>): seq<CardInfo>
  {
    seq(|names|, j requires 0 <= j < |names| => AssetCard(root, tree, template, assetType, names[j]))
  }

  /** The cards of each section, section by section. */
  function SectionCards(root: string, tree: AssetTree, template: string, types: seq<string>): seq<seq<CardInfo>>
  {
    seq(|types|, i requires 0 <= i < |types| => TypeCards(root, tree, template, types[i], AssetDirs(tree, types[i])))
  }

  /** Every card `load_assets` shows, in order. */
  function AssetCards(root: string, tree: AssetTree, template: string): seq<CardInfo>
  {
    Concat(SectionCards(root, tree, template, TypeDirs(tree)))
  }

  /** A collapsible section: its title, and whether it can be opened (it
      is disabled when it holds no card). */
  datatype Section = Section(title: string, enabled: bool)

  function Sections(tree: AssetTree): seq<Section>
  {
    SectionsFor(tree, TypeDirs(tree))
  }

  function SectionsFor(tree: AssetTree, types: seq<string>): seq<Section>
  {
    seq(|types|, i requires 0 <= i < |types| => Section(Capitalize(types[i]), AssetDirs(tree, types[i]) != []))
  }

  lemma SectionsStep(tree: AssetTree, types: seq<string>, i: nat)
    requires i < |types|
    ensures SectionsFor(tree, types[..i + 1])
         == SectionsFor(tree, types[..i]) + [Section(Capitalize(types[i]), AssetDirs(tree, types[i]) != [])]
  {
  }

  /** Every card shown is the card of an asset folder inside a type
      folder of a root that is a folder. */
  lemma ShownAssetsAreListed(root: string, tree: AssetTree, template: string, info: CardInfo)
    requires info in AssetCards(root, tree, template)
    ensures tree.rootIsDir
    ensures exists t, n :: Entry(t, Dir) in tree.types && Entry(n, Dir) in ListingOf(tree, t)
                           && info == AssetCard(root, tree, template, t, n)
  {
    var types := TypeDirs(tree);
    var parts := SectionCards(root, tree, template, types);
    ConcatMember(parts, info);
    var i :| 0 <= i < |parts| && info in parts[i];
    var names := AssetDirs(tree, types[i]);
    var j :| 0 <= j < |names| && info == AssetCard(root, tree, template, types[i], names[j]);
    ListedDir(tree.types, types[i]);
    ListedDir(ListingOf(tree, types[i]), names[j]);
  }

  /** Every asset folder inside a type folder of a root that is a folder
      has its card shown. */
  lemma ListedAssetsAreShown(root: string, tree: AssetTree, template: string, t: string, n: string)
    requires tree.rootIsDir && Entry(t, Dir) in tree.types && Entry(n, Dir) in ListingOf(tree, t)
    ensures AssetCard(root, tree, template, t, n) in AssetCards(root, tree, template)
  {
    var types := TypeDirs(tree);
    var parts := SectionCards(root, tree, template, types);
    ListedDir(tree.types, t);
    ListedDir(ListingOf(tree, t), n);
    var i :| 0 <= i < |types| && types[i] == t;
    var j :| 0 <= j < |AssetDirs(tree, t)| && AssetDirs(tree, t)[j] == n;
    assert parts[i][j] == AssetCard(root, tree, template, t, n);
    ConcatMember(parts, AssetCard(root, tree, template, t, n));
  }

  /** There is one section per type folder, titled with the type's name,
      capitalized; it can be opened iff the type has an asset folder. */
  lemma SectionsFollowTypes(tree: AssetTree)
    ensures |Sections(tree)| == |TypeDirs(tree)|
    ensures forall i :: 0 <= i < |TypeDirs(tree)| ==>
      Lower(Sections(tree)[i].title) == Lower(TypeDirs(tree)[i])
      && (Sections(tree)[i].enabled <==> exists n :: Entry(n, Dir) in ListingOf(tree, TypeDirs(tree)[i]))
  {
    var types := TypeDirs(tree);
    forall i | 0 <= i < |types|
      ensures Lower(Sections(tree)[i].title) == Lower(types[i])
      ensures Sections(tree)[i].enabled <==> exists n :: Entry(n, Dir) in ListingOf(tree, types[i])
    {
      LowerCapitalize(types[i]);
      var names := AssetDirs(tree, types[i]);
      if names != [] {
        ListedDir(ListingOf(tree, types[i]), names[0]);
      }
      if exists n :: Entry(n, Dir) in ListingOf(tree, types[i]) {
        var n :| Entry(n, Dir) in ListingOf(tree, types[i]);
        ListedDir(ListingOf(tree, types[i]), n);
      }
    }
  }

  /** A name is among the sorted folder names of a listing iff the listing
      holds a folder of that name. */
  lemma ListedDir(listing: seq<Entry>, name: string)
    ensures name in DirNames(SortedListing(listing)) <==> Entry(name, Dir) in listing
  {
    SortedListingShape(listing);
    DirNamesMembers(SortedListing(listing), name);
  }

  // -------------------------------------------------------- creation

  /** What `add_asset` creates. */
  datatype AssetCreation = AssetCreation(
    folder: string,
    subfolders: seq<string>,
    /** `<name>.json` in the asset folder */
    metadata: FileWrite,
    /** the modeling scene file, when the short name and the template are known */
    scene: Option<SceneFile>)

  function NewAsset(root: string, assetType: string, name: string, user: string, short: string,
                    templateExists: bool, stamp: string): AssetCreation
  {
    var folder := AssetPath(root, assetType, name);
    AssetCreation(
      folder,
      seq(|AssetSubfolders|, i requires 0 <= i < |AssetSubfolders| => Join(folder, AssetSubfolders[i])),
      FileWrite(Join(folder, name + ".json"),
                map["name" := Str(name), "type" := Str(assetType), "user" := Str(user),
                    "version" := Num(1), "created" := Str(stamp)]),
      if short != "" && templateExists
      then Some(NewSceneFile(Join(folder, "scenefiles"), short, name, AssetStage, user, stamp, Some(assetType)))
      else None)
  }

  /** A new asset lives in `<root>/<type>/<name>` with exactly the three
      subfolders, and its metadata names it, its type and version 1. */
  lemma NewAssetFolders(root: string, assetType: string, name: string, user: string, short: string,
                        templateExists: bool, stamp: string)
    ensures var a := NewAsset(root, assetType, name, user, short, templateExists, stamp);
      && a.folder == root + "/" + assetType + "/" + name
      && |a.subfolders| == 3
      && (forall i :: 0 <= i < 3 ==> a.subfolders[i] == Join(a.folder, AssetSubfolders[i]))
      && a.metadata.path == Join(a.folder, name + ".json")
      && a.metadata.content.Keys == {"name", "type", "user", "version", "created"}
      && a.metadata.content["name"] == Str(name) && a.metadata.content["type"] == Str(assetType)
      && a.metadata.content["user"] == Str(user) && a.metadata.content["version"] == Num(1)
  {
  }

  /** The scene file of a new asset, `<short>_<name>_modeling.blend`, has a
      same-stem sidecar recording the Modeling stage, the type and version
      "001"; it exists exactly when the short name is set and the template
      exists. */
  lemma NewAssetScene(root: string, assetType: string, name: string, user: string, short: string,
                      templateExists: bool, stamp: string)
    ensures var a := NewAsset(root, assetType, name, user, short, templateExists, stamp);
      var scenes := Join(AssetPath(root, assetType, name), "scenefiles");
      && (a.scene.Some? <==> short != "" && templateExists)
      && (a.scene.Some? ==>
            && a.scene.value.blend == Join(scenes, short + "_" + name + "_modeling.blend")
            && a.scene.value.sidecar.path == Join(scenes, short + "_" + name + "_modeling.json")
            && a.scene.value.sidecar.content["stage"] == Str(AssetStage)
            && a.scene.value.sidecar.content["type"] == Str(assetType)
            && a.scene.value.sidecar.content["version"] == Str("001"))
  {
    NewSceneFileShape(Join(AssetPath(root, assetType, name), "scenefiles"), short, name, AssetStage, user, stamp, Some(assetType));
    assert SceneStem(short, name, AssetStage) == short + "_" + name + "_modeling" by {
      assert Lower(AssetStage) == "modeling";
    }
    assert SceneStem(short, name, AssetStage) + BlendExt == short + "_" + name + "_modeling.blend";
    assert SceneStem(short, name, AssetStage) + ".json" == short + "_" + name + "_modeling.json";
  }

  /** A shown card is found by the folder it stands for. */
  lemma ShownIsFound(cards: seq<Card>, info: CardInfo)
    requires info in Infos(cards)
    ensures TargetIndex(cards, info.target) >= 0
  {
    var k :| 0 <= k < |cards| && Infos(cards)[k] == info;
    assert cards[k].target == info.target;
  }

  /** After a reload, a listed asset's folder is found among the cards. */
  lemma ListedAssetIsFound(root: string, tree: AssetTree, template: string, t: string, n: string, cards: seq<Card>)
    requires tree.rootIsDir && Entry(t, Dir) in tree.types && Entry(n, Dir) in ListingOf(tree, t)
    requires Infos(cards) == AssetCards(root, tree, template)
    ensures TargetIndex(cards, AssetPath(root, t, n)) >= 0
  {
    ListedAssetsAreShown(root, tree, template, t, n);
    ShownIsFound(cards, AssetCard(root, tree, template, t, n));
  }

  // ------------------------------------------------------------- tab

  /** `AssetTab`: its sections, its cards and selection, and its
      `latest_asset.json` memo. */
  class AssetTab {
    const projectRoot: string
    /** `<project>/03_Production/assets` */
    const root: string
    /** `THUMB_TEMPLATE`, the thumbnail of assets without their own */
    const template: string
    const tab: CardTab
    const memo: LatestPath
    var sections: seq<Section>

    /** The tab starts in list view, loads its memo, and loads the assets
        when it has a project root. It uses its card tab only for the cards,
        their selection and their view; it has no folder of its own. */
    constructor (projectRoot: string, template: string, stored: Option<Json>, dirs: set<string>, tree: AssetTree)
      ensures this.projectRoot == projectRoot && root == AssetRoot(projectRoot) && this.template == template
      ensures memo.key == AssetMemoKey && memo.remembered == Recall(stored, AssetMemoKey, dirs)
      ensures tab.viewMode == ListView
      ensures projectRoot == "" ==> tab.cards == [] && sections == []
      ensures projectRoot != "" ==>
        Infos(tab.cards) == AssetCards(root, tree, template) && sections == Sections(tree)
        && SelectedOnly(tab.cards, memo.Target())
    {
      this.projectRoot := projectRoot;
      root := AssetRoot(projectRoot);
      this.template := template;
      var t := new CardTab("");
      t.SetViewMode(ListView);
      tab := t;
      var m := new LatestPath(AssetMemoKey, stored);
      m.Load(dirs);
      memo := m;
      sections := [];
      new;
      if projectRoot != "" {
        LoadAssets(tree);
      }
    }

    /** `load_assets`: one section per type folder and one list-view card
        per asset folder, both in name order; the remembered asset, if any,
        is selected and nothing else. */
    method LoadAssets(tree: AssetTree)
      modifies this, tab, tab.cards
      ensures Infos(tab.cards) == AssetCards(root, tree, template) && sections == Sections(tree)
      ensures fresh(set c | c in tab.cards) && forall c :: c in tab.cards ==> c.view == ListView
      ensures SelectedOnly(tab.cards, memo.Target())
      ensures tab.viewMode == old(tab.viewMode) && tab.page == old(tab.page) && tab.folderPath == old(tab.folderPath)
    {
      tab.Clear();
      sections := [];
      LoadTypes(tree, TypeDirs(tree));
      var target := memo.Target();
      if target.Some? {
        var found := tab.SelectTarget(target.value);
      }
    }

    /** The outer loop of `load_assets`, over the type folders `types`. */
    method LoadTypes(tree: AssetTree, types: seq<string>)
      requires tab.cards == [] && sections == []
      modifies this, tab
      ensures Infos(tab.cards) == Concat(SectionCards(root, tree, template, types))
      ensures sections == SectionsFor(tree, types)
      ensures fresh(set c | c in tab.cards)
      ensures forall c :: c in tab.cards ==> !c.selected && c.view == ListView
      ensures tab.viewMode == old(tab.viewMode) && tab.page == old(tab.page) && tab.folderPath == old(tab.folderPath)
    {
      ghost var parts := SectionCards(root, tree, template, types);
      var i := 0;
      while i < |types|
        invariant 0 <= i <= |types|
        invariant Infos(tab.cards) == Concat(parts[..i])
        invariant sections == SectionsFor(tree, types[..i])
        invariant forall c :: c in tab.cards ==> fresh(c)
        invariant forall c :: c in tab.cards ==> !c.selected && c.view == ListView
        invariant tab.viewMode == old(tab.viewMode) && tab.page == old(tab.page) && tab.folderPath == old(tab.folderPath)
      {
        var names := AssetDirs(tree, types[i]);
        ghost var added := AddSection(tree, types[i], names);
        assert parts[i] == TypeCards(root, tree, template, types[i], names);
        ConcatStep(parts, i);
        SectionsStep(tree, types, i);
        i := i + 1;
      }
      assert parts[..i] == parts;
      assert types[..i] == types;
    }

    /** One round of `load_assets`: the section of one type and, by the
        inner loop, one list-view card per asset folder of the type, in
        order. */
    method AddSection(tree: AssetTree, assetType: string, names: seq<string>) returns (ghost added: seq<Card>)
      requires forall c :: c in tab.cards ==> !c.selected && c.view == ListView
      modifies this, tab
      ensures sections == old(sections) + [Section(Capitalize(assetType), names != [])]
      ensures tab.cards == old(tab.cards) + added
      ensures Infos(tab.cards) == Infos(old(tab.cards)) + TypeCards(root, tree, template, assetType, names)
      ensures fresh(set c | c in added)
      ensures (set c | c in tab.cards) == (set c | c in old(tab.cards)) + (set c | c in added)
      ensures forall c :: c in tab.cards ==> !c.selected && c.view == ListView
      ensures tab.viewMode == old(tab.viewMode) && tab.page == old(tab.page) && tab.folderPath == old(tab.folderPath)
    {
      sections := sections + [Section(Capitalize(assetType), names != [])];
      added := [];
      var j := 0;
      while j < |names|
        invariant 0 <= j <= |names|
        invariant tab.cards == old(tab.cards) + added
        invariant sections == old(sections) + [Section(Capitalize(assetType), names != [])]
        invariant Infos(tab.cards) == Infos(old(tab.cards)) + TypeCards(root, tree, template, assetType, names[..j])
        invariant fresh(set c | c in added)
        invariant forall c :: c in tab.cards ==> !c.selected && c.view == ListView
        invariant tab.viewMode == old(tab.viewMode) && tab.page == old(tab.page) && tab.folderPath == old(tab.folderPath)
      {
        ghost var before := tab.cards;
        var card := tab.Append(AssetCard(root, tree, template, assetType, names[j]), ListView);
        added := added + [card];
        assert Infos(tab.cards) == Infos(before) + [card.Info()];
        assert TypeCards(root, tree, template, assetType, names[..j + 1])
            == TypeCards(root, tree, template, assetType, names[..j]) + [AssetCard(root, tree, template, assetType, names[j])];
        j := j + 1;
      }
      assert names[..j] == names;
    }

    /** `add_asset` for the type and name the dialog returned (`ok` false
        when it was cancelled, which changes nothing): the asset is
        created, the tab reloaded from `after`, the listing that follows
        the creation, and, when the new asset's card is there, it becomes
        the only selected card and is remembered. */
    method AddAsset(ok: bool, assetType: string, name: string, userFile: Option<Json>, short: string,
                    templateExists: bool, stamp: string, after: AssetTree, writable: bool)
      returns (made: Option<AssetCreation>, found: bool)
      modifies this, tab, tab.cards, memo
      ensures made == if ok then Some(NewAsset(root, assetType, name, LatestUser(projectRoot, userFile), short, templateExists, stamp)) else None
      ensures !ok ==> !found && tab.cards == old(tab.cards) && sections == old(sections)
                      && memo.remembered == old(memo.remembered) && memo.stored == old(memo.stored)
      ensures ok ==> Infos(tab.cards) == AssetCards(root, after, template) && sections == Sections(after)
      ensures found <==> ok && TargetIndex(tab.cards, AssetPath(root, assetType, name)) >= 0
      ensures ok && after.rootIsDir && Entry(assetType, Dir) in after.types && Entry(name, Dir) in ListingOf(after, assetType) ==> found
      ensures found ==> SelectedOnly(tab.cards, Some(AssetPath(root, assetType, name)))
      ensures ok && !found ==> SelectedOnly(tab.cards, memo.Target())
                               && memo.remembered == old(memo.remembered) && memo.stored == old(memo.stored)
      ensures found && writable && old(memo.remembered) != Some(AssetPath(root, assetType, name)) ==>
        memo.remembered == Some(AssetPath(root, assetType, name))
        && memo.stored == Some(map[memo.key := Str(AssetPath(root, assetType, name))])
      ensures found && (!writable || old(memo.remembered) == Some(AssetPath(root, assetType, name))) ==>
        memo.remembered == old(memo.remembered) && memo.stored == old(memo.stored)
      ensures !ok ==> forall c :: c in tab.cards ==> c.selected == old(c.selected) && c.view == old(c.view)
      ensures ok ==> forall c :: c in tab.cards ==> c.view == ListView
      ensures tab.viewMode == old(tab.viewMode) && tab.page == old(tab.page) && tab.folderPath == old(tab.folderPath)
    {
      if !ok {
        return None, false;
      }
      made := Some(NewAsset(root, assetType, name, LatestUser(projectRoot, userFile), short, templateExists, stamp));
      LoadAssets(after);
      if after.rootIsDir && Entry(assetType, Dir) in after.types && Entry(name, Dir) in ListingOf(after, assetType) {
        ListedAssetIsFound(root, after, template, assetType, name, tab.cards);
      }
      found := SelectNew(AssetPath(root, assetType, name), writable);
    }

    /** The end of `add_asset`, once the tab is reloaded: when a card
        stands for `folder`, it becomes the only selected card and `folder`
        is remembered; otherwise nothing changes. */
    method SelectNew(folder: string, writable: bool) returns (found: bool)
      modifies tab.cards, memo
      ensures found <==> TargetIndex(tab.cards, folder) >= 0
      ensures found ==> SelectedOnly(tab.cards, Some(folder))
      ensures !found && old(SelectedOnly(tab.cards, memo.Target())) ==> SelectedOnly(tab.cards, memo.Target())
      ensures !found ==> memo.remembered == old(memo.remembered) && memo.stored == old(memo.stored)
      ensures found && writable && old(memo.remembered) != Some(folder) ==>
        memo.remembered == Some(folder) && memo.stored == Some(map[memo.key := Str(folder)])
      ensures found && (!writable || old(memo.remembered) == Some(folder)) ==>
        memo.remembered == old(memo.remembered) && memo.stored == old(memo.stored)
      ensures forall c :: c in tab.cards ==> c.view == old(c.view) && (!found ==> c.selected == old(c.selected))
    {
      found := tab.SelectOnly(folder, memo.Target());
      if found {
        memo.Write(folder, writable);
      }
    }

    /** `get_selected_widget` */
    method SelectedAsset() returns (r: Option<Card>)
      ensures r == FirstSelected(tab.cards)
    {
      r := tab.FindSelected();
    }
  }
}
