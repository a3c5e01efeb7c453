/** The project's asset table (`core/asset_manager.py` and its copy
    `App/core/asset_manager.py`): a list of asset records kept in the
    project's JSON data, edited from the table and rebuilt from the
    `assets/<type>/<name>` folders on refresh. */
module AssetManager {
  import opened Common
  import opened Text

  datatype VersionInfo = VersionInfo(version: string, description: string, filePath: string, thumbnail: string)

  datatype AssetRecord = AssetRecord(
    name: string, assetType: string, status: string, assignee: string, versions: seq<VersionInfo>)

  /** The four states the status column offers, in combo-box order. */
  const StatusOptions: seq<string> := ["To Do", "Inprogress", "Pending Review", "Done"]

  /** The type folders refresh visits, in this order. */
  const TypeFolders: seq<string> := ["props", "vfxs", "characters"]

  /** The sections the asset list counts. */
  const Sections: seq<string> := ["Characters", "Props", "VFXs"]

  const NoAssetsDirMessage := "Assets directory not found!"
  const RefreshedMessage := "Data refreshed successfully!"
  const EmptyNameMessage := "Asset name cannot be empty!"

  /** The message when the Blender template is missing, naming it. */
  function TemplateMissingMessage(template: string): string
  {
    "Error: Template file '" + template + "' not found!"
  }
  const InitialDescription := "Initial version"
  const RefreshedDescription := "Auto-refreshed version"

  /** The first version of an asset: `v001`, its scene file
      `assets/<folder>/<name>/<short>_<name>.blend` and its thumbnail. */
  function FirstVersion(folder: string, name: string, short: string, description: string): VersionInfo
  {
    var dir := "assets/" + folder + "/" + name;
    VersionInfo("v001", description, dir + "/" + short + "_" + name + ".blend", dir + "/thumbnail.jpg")
  }

  /** A record stands for the folder `assets/<folder>/<name>` when the names
      agree and its type, lower-cased, is the folder name. */
  predicate Matches(r: AssetRecord, name: string, folder: string)
  {
    r.name == name && Lower(r.assetType) == folder
  }

  /** The position of the first record from `k` on that stands for
      `assets/<folder>/<name>`, or `|assets|` when none does. */
  function MatchFrom(assets: seq<AssetRecord>, name: string, folder: string, k: nat): (i: nat)
    requires k <= |assets|
    ensures k <= i <= |assets|
    ensures i < |assets| ==> Matches(assets[i], name, folder)
    ensures forall j :: k <= j < i ==> !Matches(assets[j], name, folder)
    decreases |assets| - k
  {
    if k == |assets| || Matches(assets[k], name, folder) then k
    else MatchFrom(assets, name, folder, k + 1)
  }

  /** The first record that stands for `assets/<folder>/<name>`. */
  function FindExisting(assets: seq<AssetRecord>, name: string, folder: string): (r: Option<AssetRecord>)
    ensures r.Some? ==>
      && Matches(r.value, name, folder)
      && exists i :: 0 <= i < |assets| && assets[i] == r.value
           && forall j :: 0 <= j < i ==> !Matches(assets[j], name, folder)
    ensures r.None? <==> forall i :: 0 <= i < |assets| ==> !Matches(assets[i], name, folder)
  {
    var i := MatchFrom(assets, name, folder, 0);
    if i < |assets| then Some(assets[i]) else None
  }

  /** A folder found on disk: its type folder and its name. */
  datatype Found = Found(folder: string, name: string)

  /** The sub-folders of one type folder, in listing order. */
  function DirsIn(folder: string, listing: seq<Entry>): seq<Found>
  {
    if listing == [] then []
    else
      var last := listing[|listing| - 1];
      DirsIn(folder, listing[..|listing| - 1]) + (if last.kind == Dir then [Found(folder, last.name)] else [])
  }

  /** The asset folders of every type folder that exists, type by type. */
  function FoundDirs(dirs: map<string, seq<Entry>>, types: seq<string>): seq<Found>
  {
    if types == [] then []
    else
      var t := types[|types| - 1];
      FoundDirs(dirs, types[..|types| - 1]) + (if t in dirs then DirsIn(t, dirs[t]) else [])
  }

  /** The record refresh keeps for a folder: the first existing record for it
      unchanged, or a fresh one with the folder name capitalised as type. */
  function RecordFor(assets: seq<AssetRecord>, f: Found, short: string): AssetRecord
  {
    match FindExisting(assets, f.name, f.folder)
    case Some(r) => r
    case None => AssetRecord(f.name, Capitalize(f.folder), "To Do", "",
                             [FirstVersion(f.folder, f.name, short, RefreshedDescription)])
  }

  function Reconcile(assets: seq<AssetRecord>, found: seq<Found>, short: string): seq<AssetRecord>
  {
    seq(|found|, k requires 0 <= k < |found| => RecordFor(assets, found[k], short))
  }

  lemma ReconcileAppend(assets: seq<AssetRecord>, a: seq<Found>, b: seq<Found>, short: string)
    ensures Reconcile(assets, a + b, short) == Reconcile(assets, a, short) + Reconcile(assets, b, short)
  {
  }

  /** How many records carry exactly this type. */
  function CountOf(assets: seq<AssetRecord>, t: string): nat
  {
    if assets == [] then 0
    else CountOf(assets[..|assets| - 1], t) + (if assets[|assets| - 1].assetType == t then 1 else 0)
  }

  /** Refresh yields one record per asset folder, in folder order, and each
      record stands for its folder: same name, type equal to the folder name
      up to case. */
  lemma {:induction false} RefreshOneRecordPerFolder(assets: seq<AssetRecord>, found: seq<Found>, short: string)
    requires forall k :: 0 <= k < |found| ==> Lower(found[k].folder) == found[k].folder
    ensures |Reconcile(assets, found, short)| == |found|
    ensures forall k :: 0 <= k < |found| ==>
      Matches(Reconcile(assets, found, short)[k], found[k].name, found[k].folder)
  {
    forall k | 0 <= k < |found|
      ensures Matches(Reconcile(assets, found, short)[k], found[k].name, found[k].folder)
    {
      if FindExisting(assets, found[k].name, found[k].folder).None? {
        LowerCapitalize(found[k].folder);
      }
    }
  }

  /** A record that stands for a folder on disk survives a refresh whole
      (status, assignee and versions included): the first such record is
      reused. A folder without a record gets a new one that is "To Do",
      unassigned, with the single auto-refreshed version `v001`. */
  lemma RefreshKeepsExistingRecords(assets: seq<AssetRecord>, found: seq<Found>, short: string, k: nat)
    requires k < |found|
    ensures var r := Reconcile(assets, found, short)[k];
      && (forall i :: 0 <= i < |assets| && Matches(assets[i], found[k].name, found[k].folder)
            && (forall j :: 0 <= j < i ==> !Matches(assets[j], found[k].name, found[k].folder))
            ==> r == assets[i])
      && ((forall i :: 0 <= i < |assets| ==> !Matches(assets[i], found[k].name, found[k].folder))
            ==> r.status == "To Do" && r.assignee == "" && r.assetType == Capitalize(found[k].folder)
                && r.versions == [FirstVersion(found[k].folder, found[k].name, short, RefreshedDescription)])
  {
    var f := found[k];
    var e := FindExisting(assets, f.name, f.folder);
    if e.Some? {
      var i' :| 0 <= i' < |assets| && assets[i'] == e.value
                && forall j :: 0 <= j < i' ==> !Matches(assets[j], f.name, f.folder);
      forall i | 0 <= i < |assets| && Matches(assets[i], f.name, f.folder)
                 && (forall j :: 0 <= j < i ==> !Matches(assets[j], f.name, f.folder))
        ensures Reconcile(assets, found, short)[k] == assets[i]
      {
        assert !(i < i') && !(i' < i);
      }
    }
  }

  /** A record that stands for no folder on disk is dropped by refresh. */
  lemma RefreshDropsRecordsWithoutFolder(assets: seq<AssetRecord>, found: seq<Found>, short: string, r: AssetRecord)
    requires forall k :: 0 <= k < |found| ==> Lower(found[k].folder) == found[k].folder
    requires forall k :: 0 <= k < |found| ==> !Matches(r, found[k].name, found[k].folder)
    ensures r !in Reconcile(assets, found, short)
  {
    RefreshOneRecordPerFolder(assets, found, short);
  }

  /** The folders a listing contributes are exactly its sub-folders. */
  lemma {:induction false} DirsInAreSubfolders(folder: string, listing: seq<Entry>, f: Found)
    ensures f in DirsIn(folder, listing) <==> f.folder == folder && Entry(f.name, Dir) in listing
  {
    if listing != [] {
      DirsInAreSubfolders(folder, listing[..|listing| - 1], f);
      assert listing == listing[..|listing| - 1] + [listing[|listing| - 1]];
    }
  }

  /** Refresh visits exactly the sub-folders of the type folders that exist. */
  lemma {:induction false} FoundDirsAreAssetFolders(dirs: map<string, seq<Entry>>, types: seq<string>, f: Found)
    ensures f in FoundDirs(dirs, types) <==>
      f.folder in types && f.folder in dirs && Entry(f.name, Dir) in dirs[f.folder]
  {
    if types != [] {
      var t := types[|types| - 1];
      FoundDirsAreAssetFolders(dirs, types[..|types| - 1], f);
      assert types == types[..|types| - 1] + [t];
      if t in dirs {
        DirsInAreSubfolders(t, dirs[t], f);
      }
    }
  }

  /** A VFX folder found by refresh gets the type "Vfxs" (the capitalised
      folder name), which is none of the sections, so no section counts it. */
  lemma RefreshedVfxIsCountedNowhere(assets: seq<AssetRecord>, name: string, short: string)
    requires forall i :: 0 <= i < |assets| ==> !Matches(assets[i], name, "vfxs")
    ensures var r := RecordFor(assets, Found("vfxs", name), short);
      r.assetType == "Vfxs" && forall t :: t in Sections ==> CountOf([r], t) == 0
  {
    var r := RecordFor(assets, Found("vfxs", name), short);
    assert r.assetType == Capitalize("vfxs");
    assert Capitalize("vfxs") == ['V'] + Lower("fxs");
    assert Lower("fxs") == "fxs";
    assert [r][..0] == [];
  }

  /** The section counts never exceed the number of records, and they add
      up to it exactly when every record's type is one of the sections. */
  lemma {:induction false} CountsAddUp(assets: seq<AssetRecord>)
    ensures CountOf(assets, "Characters") + CountOf(assets, "Props") + CountOf(assets, "VFXs") <= |assets|
    ensures CountOf(assets, "Characters") + CountOf(assets, "Props") + CountOf(assets, "VFXs") == |assets|
      <==> forall i :: 0 <= i < |assets| ==> assets[i].assetType in Sections
  {
    if assets != [] {
      var init := assets[..|assets| - 1];
      CountsAddUp(init);
      assert forall i :: 0 <= i < |init| ==> init[i] == assets[i];
    }
  }

  /** The answer the program gives when asked to open the current scene file
      in Blender. */
  datatype OpenOutcome = NoValidFile | NotABlendFile(path: string) | Launch(path: string)

  /** The first seven bytes of every `.blend` file: "BLENDER". */
  const BlendMagic: seq<byte> := [66, 76, 69, 78, 68, 69, 82]

  /** `open_in_blender`: a current file that is set and exists is read; it is
      launched only when its first seven bytes are "BLENDER". */
  function OpenInBlender(current: string, exists_: bool, content: seq<byte>): (r: OpenOutcome)
    ensures r.Launch? <==> current != [] && exists_ && |content| >= 7 && content[..7] == BlendMagic
    ensures r.NoValidFile? <==> current == [] || !exists_
    ensures !r.NoValidFile? ==> r.path == current
  {
    if current == [] || !exists_ then NoValidFile
    else
      var header := if |content| <= 7 then content else content[..7];
      if header != BlendMagic then NotABlendFile(current) else Launch(current)
  }

  /** `type_counts` of `load_assets`: for each section, how many records carry
      exactly that type. */
  method TypeCounts(assets: seq<AssetRecord>) returns (counts: map<string, nat>)
    ensures counts.Keys == set t | t in Sections
    ensures forall t :: t in Sections ==> counts[t] == CountOf(assets, t)
  {
    counts := map["Characters" := 0, "Props" := 0, "VFXs" := 0];
    var i := 0;
    while i < |assets|
      invariant 0 <= i <= |assets|
      invariant counts.Keys == set t | t in Sections
      invariant forall t :: t in Sections ==> counts[t] == CountOf(assets[..i], t)
    {
      assert assets[..i + 1][..i] == assets[..i];
      var t := assets[i].assetType;
      if t in counts {
        counts := counts[t := counts[t] + 1];
      }
      i := i + 1;
    }
    assert assets[..i] == assets;
  }

  /** The asset table of one project. */
  class AssetTable {
    var assets: seq<AssetRecord>
    var status: string
    /** The project's short name (its name when the data has none). */
    const short: string
    /** `TEMPLATE_BLEND_FILE` */
    const template: string

    constructor (assets: seq<AssetRecord>, short: string, template: string)
      ensures this.assets == assets && this.short == short && status == ""
      ensures this.template == template
    {
      this.assets := assets;
      this.short := short;
      this.template := template;
      status := "";
    }

    /** `on_status_changed`: the status combo of a row picked option `index`. */
    method OnStatusChanged(row: nat, index: nat)
      requires row < |assets| && index < |StatusOptions|
      modifies this
      ensures assets == old(assets)[row := old(assets)[row].(status := StatusOptions[index])]
      ensures status == old(status)
    {
      assets := assets[row := assets[row].(status := StatusOptions[index])];
    }

    /** `on_cell_changed` (and `on_assignee_changed`): only the assignee
        column, number 3, writes back into the record. */
    method OnCellChanged(row: nat, col: nat, text: string)
      requires col == 3 ==> row < |assets|
      modifies this
      ensures col == 3 ==> assets == old(assets)[row := old(assets)[row].(assignee := text)]
      ensures col != 3 ==> assets == old(assets)
      ensures status == old(status)
    {
      if col == 3 {
        assets := assets[row := assets[row].(assignee := text)];
      }
    }

    /** `add_asset` once the dialog has given a type and a name;
        `sceneExists` and `templateExists` say whether the scene file and the
        Blender template are on disk. */
    method AddAsset(assetType: string, name: string, sceneExists: bool, templateExists: bool)
      modifies this
      ensures name == [] ==> assets == old(assets) && status == EmptyNameMessage
      ensures name != [] && !sceneExists && !templateExists ==>
        assets == old(assets) && status == TemplateMissingMessage(template)
      ensures name != [] && (sceneExists || templateExists) ==>
        assets == old(assets) + [AssetRecord(name, assetType, "To Do", "",
                                  [FirstVersion(Lower(assetType), name, short, InitialDescription)])]
        && status == "Asset '" + name + "' (Type: " + assetType + ") created successfully!"
    {
      if name == [] {
        status := EmptyNameMessage;
        return;
      }
      if !sceneExists && !templateExists {
        status := TemplateMissingMessage(template);
        return;
      }
      var folder := Lower(assetType);
      var record := AssetRecord(name, assetType, "To Do", "", [FirstVersion(folder, name, short, InitialDescription)]);
      assets := assets + [record];
      status := "Asset '" + name + "' (Type: " + assetType + ") created successfully!";
    }

    /** `refresh_data`: `typeDirs` holds the listing of every type folder
        that exists under `assets/`; a refresh that finds the folder
        reports success. */
    method RefreshData(assetsDirExists: bool, typeDirs: map<string, seq<Entry>>)
      modifies this
      ensures !assetsDirExists ==> assets == old(assets) && status == NoAssetsDirMessage
      ensures assetsDirExists ==>
        assets == Reconcile(old(assets), FoundDirs(typeDirs, TypeFolders), short)
        && status == RefreshedMessage
    {
      if !assetsDirExists {
        status := NoAssetsDirMessage;
        return;
      }
      var current := assets;
      var newAssets: seq<AssetRecord> := [];
      var t := 0;
      while t < |TypeFolders|
        invariant 0 <= t <= |TypeFolders|
        invariant newAssets == Reconcile(current, FoundDirs(typeDirs, TypeFolders[..t]), short)
        invariant status == old(status)
      {
        var folder := TypeFolders[t];
        assert TypeFolders[..t + 1][..t] == TypeFolders[..t];
        if folder in typeDirs {
          newAssets := RefreshType(current, FoundDirs(typeDirs, TypeFolders[..t]), folder, typeDirs[folder], newAssets);
        }
        t := t + 1;
      }
      assert TypeFolders[..t] == TypeFolders;
      assets := newAssets;
      status := RefreshedMessage;
    }

    /** The inner loop of `refresh_data`, over the listing of one type
        folder: extends the records built so far with one record per
        asset folder of the listing. */
    method RefreshType(current: seq<AssetRecord>, found: seq<Found>, folder: string, listing: seq<Entry>,
                       soFar: seq<AssetRecord>) returns (newAssets: seq<AssetRecord>)
      requires soFar == Reconcile(current, found, short)
      ensures newAssets == Reconcile(current, found + DirsIn(folder, listing), short)
    {
      newAssets := soFar;
      var i := 0;
      while i < |listing|
        invariant 0 <= i <= |listing|
        invariant newAssets == Reconcile(current, found + DirsIn(folder, listing[..i]), short)
      {
        assert listing[..i + 1][..i] == listing[..i];
        var before := found + DirsIn(folder, listing[..i]);
        if listing[i].kind == Dir {
          var existing := FindExisting(current, listing[i].name, folder);
          var record := if existing.Some? then existing.value
                        else AssetRecord(listing[i].name, Capitalize(folder), "To Do", "",
                                         [FirstVersion(folder, listing[i].name, short, RefreshedDescription)]);
          ReconcileAppend(current, before, [Found(folder, listing[i].name)], short);
          assert before + [Found(folder, listing[i].name)] == found + DirsIn(folder, listing[..i + 1]);
          newAssets := newAssets + [record];
        } else {
          assert DirsIn(folder, listing[..i + 1]) == DirsIn(folder, listing[..i]);
        }
        i := i + 1;
      }
      assert listing[..i] == listing;
    }
  }
}
