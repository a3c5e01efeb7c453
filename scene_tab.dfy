/** The scene tab (`tab_scene.py`): the `.blend` files of one
    `<asset or shot>/scenefiles` folder as list-view cards, the stage read
    from each file name, the version, date and user read from the file's
    JSON sidecar, and a menu that creates the scene file of a stage the
    folder does not have yet. */
module SceneTabs {
  import opened Common
  import opened Text
  import opened Sorting
  import opened SceneNaming
  import opened CardTabs
  import AssetTabs
  import Shots

  // ---------------------------------------------------------------- paths

  predicate AllSlashes(s: string)
  {
    forall i :: 0 <= i < |s| ==> s[i] == '/'
  }

  /** `s.rstrip('/')`: a prefix of `s` that does not end in '/', and only
      slashes were dropped. */
  function TrimSlashes(s: string): (r: string)
    ensures |r| <= |s| && r == s[..|r|]
    ensures r == [] || r[|r| - 1] != '/'
    ensures forall i :: |r| <= i < |s| ==> s[i] == '/'
  {
    if s != [] && s[|s| - 1] == '/' then TrimSlashes(s[..|s| - 1]) else s
  }

  /** `os.path.dirname` (POSIX): everything up to the last '/', without the
      trailing slashes unless nothing but slashes is left; always a prefix
      of the path. */
  function Dirname(p: string): (r: string)
    ensures |r| <= |p| && r == p[..|r|]
  {
    var head := p[..LastIndex(p, '/') + 1];
    if head != [] && !AllSlashes(head) then TrimSlashes(head) else head
  }

  /** Joining a name to a folder and taking the folder name gives the folder
      back, and the base name gives the name back. */
  lemma DirnameJoin(dir: string, name: string)
    requires dir != [] && dir[|dir| - 1] != '/'
    requires '/' !in name
    ensures Dirname(Join(dir, name)) == dir
    ensures Basename(Join(dir, name)) == name
  {
    var p := Join(dir, name);
    assert p == dir + ['/'] + name;
    assert forall j :: |dir| < j < |p| ==> p[j] == name[j - |dir| - 1];
    LastIndexIs(p, '/', |dir|);
    assert p[..|dir| + 1] == dir + ['/'];
    assert !AllSlashes(dir + ['/']) by {
      assert (dir + ['/'])[|dir| - 1] != '/';
    }
    LastSegmentAfter(dir, '/', name);
  }

  // ---------------------------------------------------------------- modes

  /** What a scene folder belongs to. */
  datatype Mode = AssetMode | ShotMode | NoMode

  /** The kind of the folder's owner, the owner's name (the entity), and
      for an asset its category. */
  datatype Context = Context(mode: Mode, entity: string, category: string)

  /** The walk up from `p` that decides what `folder` belongs to: the first
      ancestor whose name is "assets" in any case makes `folder` an asset's
      scene folder, "sequencer" a shot's; the entity is the name of the
      folder's parent, the category (assets only) that of its grandparent.
      The walk stops with no mode at an empty path or at a root. */
  function ModeWalk(folder: string, p: string): Context
    decreases |p|
  {
    var q := Dirname(p);
    if q == [] then Context(NoMode, "", "")
    else if Lower(Basename(q)) == "assets" then
      Context(AssetMode, Basename(Dirname(folder)), Basename(Dirname(Dirname(folder))))
    else if Lower(Basename(q)) == "sequencer" then
      Context(ShotMode, Basename(Dirname(folder)), "")
    else if Dirname(q) == q then Context(NoMode, "", "")
    else ModeWalk(folder, q)
  }

  /** The context `load_from` and `show_stage_menu` find for `folder`. */
  function ModeOf(folder: string): Context
  {
    ModeWalk(folder, folder)
  }

  /** The loop both `load_from` and `show_stage_menu` run over the
      ancestors of the folder. */
  method DetectMode(folder: string) returns (ctx: Context)
    ensures ctx == ModeOf(folder)
  {
    var p := folder;
    while true
      invariant ModeWalk(folder, p) == ModeOf(folder)
      decreases |p|
    {
      var q := Dirname(p);
      if q == [] {
        return Context(NoMode, "", "");
      }
      var base := Lower(Basename(q));
      if base == "assets" {
        return Context(AssetMode, Basename(Dirname(folder)), Basename(Dirname(Dirname(folder))));
      }
      if base == "sequencer" {
        return Context(ShotMode, Basename(Dirname(folder)), "");
      }
      if Dirname(q) == q {
        return Context(NoMode, "", "");
      }
      p := q;
    }
  }

  /** A name the walk passes over: not "assets" or "sequencer" in any case. */
  predicate Plain(name: string)
  {
    name != [] && '/' !in name && Lower(name) != "assets" && Lower(name) != "sequencer"
  }

  /** The walk passes over a folder with a plain name that is not a root. */
  lemma PlainStep(folder: string, p: string, q: string)
    requires Dirname(p) == q && Plain(Basename(q)) && Dirname(q) != q
    ensures ModeWalk(folder, p) == ModeWalk(folder, q)
  {
  }

  /** A folder joined with a non-empty name holding no '/' does not end in '/'. */
  lemma JoinEnd(dir: string, name: string)
    requires name != [] && '/' !in name
    ensures Join(dir, name) != [] && Join(dir, name)[|Join(dir, name)| - 1] != '/'
  {
    assert Join(dir, name)[|Join(dir, name)| - 1] == name[|name| - 1];
  }

  /** The names the walk stops at, and "scenefiles", which it passes. */
  lemma WalkWords()
    ensures Lower("assets") == "assets" && Lower("sequencer") == "sequencer"
    ensures Plain("scenefiles") && '/' !in "assets" && '/' !in "sequencer" && '/' !in "03_Production"
  {
    LowerIs("assets", "assets");
    LowerIs("sequencer", "sequencer");
    LowerIs("scenefiles", "scenefiles");
  }

  /** The scene folder of an asset the asset tab creates belongs to that
      asset: the asset's name is the entity and its type the category. */
  lemma AssetScenesAreAssetMode(projectRoot: string, assetType: string, name: string)
    requires Plain(assetType) && Plain(name)
    ensures ModeOf(Join(AssetTabs.AssetPath(AssetTabs.AssetRoot(projectRoot), assetType, name), "scenefiles"))
         == Context(AssetMode, name, assetType)
  {
    WalkWords();
    var production := Join(projectRoot, "03_Production");
    var root := Join(production, "assets");
    assert root == AssetTabs.AssetRoot(projectRoot);
    var typeDir := Join(root, assetType);
    var assetDir := Join(typeDir, name);
    var folder := Join(assetDir, "scenefiles");
    JoinEnd(projectRoot, "03_Production");
    JoinEnd(production, "assets");
    JoinEnd(root, assetType);
    JoinEnd(typeDir, name);
    DirnameJoin(production, "assets");
    DirnameJoin(root, assetType);
    DirnameJoin(typeDir, name);
    DirnameJoin(assetDir, "scenefiles");
    PlainStep(folder, folder, assetDir);
    PlainStep(folder, assetDir, typeDir);
  }

  /** The scene folder of a shot the shot tab creates belongs to that shot. */
  lemma ShotScenesAreShotMode(projectRoot: string, name: string)
    requires Plain(name)
    ensures ModeOf(Join(Join(Shots.ShotRoot(projectRoot), name), "scenefiles")) == Context(ShotMode, name, "")
  {
    WalkWords();
    var production := Join(projectRoot, "03_Production");
    var root := Join(production, "sequencer");
    assert root == Shots.ShotRoot(projectRoot);
    var shotDir := Join(root, name);
    var folder := Join(shotDir, "scenefiles");
    JoinEnd(projectRoot, "03_Production");
    JoinEnd(production, "sequencer");
    JoinEnd(root, name);
    DirnameJoin(production, "sequencer");
    DirnameJoin(root, name);
    DirnameJoin(shotDir, "scenefiles");
    PlainStep(folder, folder, shotDir);
  }

  // --------------------------------------------------------------- stages

  /** The stages of the folder's kind, in menu order. */
  function StagesFor(mode: Mode): seq<string>
  {
    match mode
    case AssetMode => AssetStages
    case ShotMode => ShotStages
    case NoMode => []
  }

  /** The first stage whose lower-case name ends `lowerStem`. */
  function FirstEnding(lowerStem: string, stages: seq<string>): Option<string>
  {
    if stages == [] then None
    else if EndsWith(lowerStem, Lower(stages[0])) then Some(stages[0])
    else FirstEnding(lowerStem, stages[1..])
  }

  /** The stage a file's stem names: the first stage the stem ends with,
      ignoring case; when there is none (or it is empty), the text after
      the stem's last '_'. */
  function StageOf(stem: string, stages: seq<string>): string
  {
    var m := FirstEnding(Lower(stem), stages);
    if m.Some? && m.value != "" then m.value else LastSegment(stem, '_')
  }

  /** The stage loop of `load_from`. */
  method MatchStage(stem: string, stages: seq<string>) returns (st: string)
    ensures st == StageOf(stem, stages)
  {
    var lowerName := Lower(stem);
    st := "";
    var i := 0;
    while i < |stages|
      invariant 0 <= i <= |stages|
      invariant FirstEnding(lowerName, stages) == FirstEnding(lowerName, stages[i..])
      invariant st == ""
    {
      assert stages[i..][0] == stages[i] && stages[i..][1..] == stages[i + 1..];
      if EndsWith(lowerName, Lower(stages[i])) {
        st := stages[i];
        assert FirstEnding(lowerName, stages) == Some(st);
        break;
      }
      i := i + 1;
    }
    assert st != "" ==> FirstEnding(lowerName, stages) == Some(st);
    assert st == "" ==> FirstEnding(lowerName, stages) == None || FirstEnding(lowerName, stages) == Some("");
    if st == "" {
      st := LastSegment(stem, '_');
    }
  }

  /** No stage's lower-case name ends another's. */
  predicate SuffixFree(stages: seq<string>)
  {
    forall i, j :: 0 <= i < |stages| && 0 <= j < |stages| && i != j ==> !EndsWith(Lower(stages[i]), Lower(stages[j]))
  }

  /** No stage has a '_' in its name. */
  predicate NoUnderscore(stages: seq<string>)
  {
    forall i :: 0 <= i < |stages| ==> '_' !in Lower(stages[i])
  }

  /** The lower-case names of the asset stages. */
  lemma AssetStageKeys()
    ensures Lower(AssetStages[0]) == "modeling" && Lower(AssetStages[1]) == "texturing"
    ensures Lower(AssetStages[2]) == "rigging" && Lower(AssetStages[3]) == "groom"
  {
    LowerIs("Modeling", "modeling");
    LowerIs("Texturing", "texturing");
    LowerIs("Rigging", "rigging");
    LowerIs("Groom", "groom");
  }

  /** The lower-case names of the shot stages. */
  lemma ShotStageKeys()
    ensures Lower(ShotStages[0]) == "animation" && Lower(ShotStages[1]) == "blocking"
    ensures Lower(ShotStages[2]) == "lighting" && Lower(ShotStages[3]) == "vfx"
  {
    LowerIs("Animation", "animation");
    LowerIs("Blocking", "blocking");
    LowerIs("Lighting", "lighting");
    LowerIs("Vfx", "vfx");
  }

  /** Two words that differ `k` characters from their ends end neither
      one the other. */
  lemma DifferFromEnd(s: string, t: string, k: nat)
    requires 1 <= k <= |s| && k <= |t| && s[|s| - k] != t[|t| - k]
    ensures !EndsWith(s, t) && !EndsWith(t, s)
  {
    if |t| <= |s| {
      assert s[|s| - |t|..][|t| - k] == s[|s| - k];
    }
    if |s| <= |t| {
      assert t[|t| - |s|..][|s| - k] == t[|t| - k];
    }
  }

  /** The asset stages are non-empty and suffix-free, so a scene file name
      tells its stage. */
  lemma AssetStagesAreDistinct()
    ensures SuffixFree(AssetStages)
    ensures forall i :: 0 <= i < |AssetStages| ==> AssetStages[i] != ""
  {
    AssetStageKeys();
    DifferFromEnd("modeling", "texturing", 4);
    DifferFromEnd("modeling", "rigging", 4);
    DifferFromEnd("texturing", "rigging", 4);
    DifferFromEnd("groom", "modeling", 1);
    DifferFromEnd("groom", "texturing", 1);
    DifferFromEnd("groom", "rigging", 1);
    forall i, j | 0 <= i < 4 && 0 <= j < 4 && i != j
      ensures !EndsWith(Lower(AssetStages[i]), Lower(AssetStages[j]))
    {
      assert i == 0 || i == 1 || i == 2 || i == 3;
      assert j == 0 || j == 1 || j == 2 || j == 3;
    }
  }

  /** No asset stage has a '_' in its name. */
  lemma AssetStagesHaveNoUnderscore()
    ensures NoUnderscore(AssetStages)
  {
    AssetStageKeys();
    forall i | 0 <= i < 4
      ensures '_' !in Lower(AssetStages[i])
    {
      assert i == 0 || i == 1 || i == 2 || i == 3;
    }
  }

  /** The shot stages are non-empty and suffix-free. */
  lemma ShotStagesAreDistinct()
    ensures SuffixFree(ShotStages)
    ensures forall i :: 0 <= i < |ShotStages| ==> ShotStages[i] != ""
  {
    ShotStageKeys();
    DifferFromEnd("animation", "blocking", 1);
    DifferFromEnd("animation", "lighting", 1);
    DifferFromEnd("animation", "vfx", 1);
    DifferFromEnd("blocking", "lighting", 4);
    DifferFromEnd("blocking", "vfx", 1);
    DifferFromEnd("lighting", "vfx", 1);
    forall i, j | 0 <= i < 4 && 0 <= j < 4 && i != j
      ensures !EndsWith(Lower(ShotStages[i]), Lower(ShotStages[j]))
    {
      assert i == 0 || i == 1 || i == 2 || i == 3;
      assert j == 0 || j == 1 || j == 2 || j == 3;
    }
  }

  /** No shot stage has a '_' in its name. */
  lemma ShotStagesHaveNoUnderscore()
    ensures NoUnderscore(ShotStages)
  {
    ShotStageKeys();
    forall i | 0 <= i < 4
      ensures '_' !in Lower(ShotStages[i])
    {
      assert i == 0 || i == 1 || i == 2 || i == 3;
    }
  }

  /** Two suffixes of one string: the shorter ends the longer. */
  lemma EndsWithBoth(s: string, a: string, b: string)
    requires EndsWith(s, a) && EndsWith(s, b) && |b| <= |a|
    ensures EndsWith(a, b)
  {
    assert a[|a| - |b|..] == s[|s| - |a|..][|a| - |b|..] == s[|s| - |b|..];
  }

  /** `FirstEnding` finds the `k`-th stage when it is the first that fits. */
  lemma {:induction false} FirstEndingIs(lowerStem: string, stages: seq<string>, k: nat)
    requires k < |stages| && EndsWith(lowerStem, Lower(stages[k]))
    requires forall j :: 0 <= j < k ==> !EndsWith(lowerStem, Lower(stages[j]))
    ensures FirstEnding(lowerStem, stages) == Some(stages[k])
  {
    if k > 0 {
      FirstEndingIs(lowerStem, stages[1..], k - 1);
    }
  }

  /** The stage of a scene file this program names is read back from its
      stem, whatever the project's short name and the entity are. */
  lemma StageOfSceneStem(short: string, entity: string, stages: seq<string>, k: nat)
    requires SuffixFree(stages) && k < |stages| && stages[k] != ""
    ensures StageOf(SceneStem(short, entity, stages[k]), stages) == stages[k]
  {
    var front := short + "_" + entity + "_";
    var key := Lower(stages[k]);
    var stem := SceneStem(short, entity, stages[k]);
    assert stem == front + key;
    LowerAppend(front, key);
    LowerLower(stages[k]);
    var low := Lower(stem);
    assert low == Lower(front) + key;
    assert EndsWith(low, key) by {
      assert low[|low| - |key|..] == key;
    }
    forall j | 0 <= j < k
      ensures !EndsWith(low, Lower(stages[j]))
    {
      if EndsWith(low, Lower(stages[j])) {
        if |Lower(stages[j])| <= |key| {
          EndsWithBoth(low, key, Lower(stages[j]));
        } else {
          EndsWithBoth(low, Lower(stages[j]), key);
        }
      }
    }
    FirstEndingIs(low, stages, k);
  }

  /** The stage of every scene file this program names in an asset or a
      shot folder is read back from its stem. */
  lemma StageOfCreatedFile(short: string, entity: string, mode: Mode, k: nat)
    requires mode != NoMode && k < |StagesFor(mode)|
    ensures StageOf(SceneStem(short, entity, StagesFor(mode)[k]), StagesFor(mode)) == StagesFor(mode)[k]
  {
    AssetStagesAreDistinct();
    ShotStagesAreDistinct();
    StageOfSceneStem(short, entity, StagesFor(mode), k);
  }

  // -------------------------------------------------------------- version

  /** `str(value)` for the JSON values the model keeps: a negative number
      is printed with its '-' sign. */
  function Show(v: Value): string
  {
    match v
    case Str(s) => s
    case Num(n) => if n < 0 then "-" + Decimal(-n) else Decimal(n)
  }

  /** `"v" + str(version).zfill(3)`: the version line of a card. */
  function VersionLabel(v: Value): string
  {
    "v" + ZFill(Show(v), 3)
  }

  /** A numeric version shows as "v" and its three-digit padding, which
      reads back as the number. */
  lemma VersionLabelOfNumber(n: nat)
    ensures VersionLabel(Num(n)) == "v" + Pad3(n)
    ensures IsDigits(VersionLabel(Num(n))[1..]) && ParseNat(VersionLabel(Num(n))[1..]) == n
  {
    PadRoundTrip(n);
    assert VersionLabel(Num(n))[1..] == ZFill(Decimal(n), 3);
  }

  /** A negative version keeps its sign in front of the padding, as
      `zfill` does: -1 shows as "v-01". */
  lemma NegativeVersionLabel(n: int)
    requires -10 < n < 0
    ensures VersionLabel(Num(n)) == "v-0" + [DigitChar(-n)]
  {
    assert Show(Num(n)) == "-" + [DigitChar(-n)];
  }

  /** The first version a new sidecar records ("001") and the default of a
      folder without one (the number 1) show alike. */
  lemma FirstVersionLabel()
    ensures VersionLabel(Str(FirstFileVersion)) == "v001" && VersionLabel(Num(1)) == "v001"
  {
    assert Decimal(1) == "1";
  }

  // ---------------------------------------------------------------- cards

  /** A `.blend` file of the listing: a file whose extension is ".blend" in
      any case. */
  predicate IsBlendFile(e: Entry)
  {
    e.kind == File && Lower(Ext(e.name)) == BlendExt
  }

  /** The names of the `.blend` files of a listing, in listing order. */
  function BlendNames(es: seq<Entry>): seq<string>
  {
    if es == [] then []
    else
      var e := es[|es| - 1];
      BlendNames(es[..|es| - 1]) + (if IsBlendFile(e) then [e.name] else [])
  }

  lemma {:induction false} BlendNamesMembers(es: seq<Entry>, name: string)
    ensures name in BlendNames(es) <==> exists e :: e in es && IsBlendFile(e) && e.name == name
  {
    if es != [] {
      var n := |es| - 1;
      BlendNamesMembers(es[..n], name);
      assert es == es[..n] + [es[n]];
    }
  }

  /** The files `load_from` shows, in name order. */
  function BlendFiles(listing: seq<Entry>): seq<string>
  {
    BlendNames(SortedListing(listing))
  }

  /** A name is shown exactly when the listing holds a `.blend` file of
      that name. */
  lemma BlendFilesMembers(listing: seq<Entry>, name: string)
    ensures name in BlendFiles(listing) <==> Entry(name, File) in listing && Lower(Ext(name)) == BlendExt
  {
    SortedListingShape(listing);
    BlendNamesMembers(SortedListing(listing), name);
    if Entry(name, File) in listing && Lower(Ext(name)) == BlendExt {
      assert IsBlendFile(Entry(name, File));
    }
  }

  /** `m.get(key, default)` */
  function Get(m: Json, key: string, default: Value): Value
  {
    if key in m then m[key] else default
  }

  /** `<folder>/../<entity>.json`, the metadata of the asset or shot. */
  function EntityFile(folder: string, ctx: Context): string
  {
    Join(Dirname(folder), ctx.entity + ".json")
  }

  /** The entity metadata `load_from` falls back on: read only for an
      asset or a shot folder, empty when missing or unreadable (`files`
      holds the JSON files that exist and parse). */
  function EntityMeta(folder: string, ctx: Context, files: map<string, Json>): Json
  {
    if ctx.mode != NoMode && EntityFile(folder, ctx) in files then files[EntityFile(folder, ctx)] else map[]
  }

  /** The card of the scene file `name` once its stage is known: the
      stage as title, the Blender icon, the version, creation time and
      user of the file's own sidecar, each falling back on the entity
      metadata (version 1, "" and ""), and the file it opens. */
  function SceneCardWith(folder: string, name: string, stage: string, entity: Json, files: map<string, Json>,
                         icon: string): CardInfo
  {
    var own := Join(folder, Stem(name) + ".json");
    var info := if own in files then files[own] else map[];
    CardInfo(stage, icon,
             VersionLabel(Get(info, "version", Get(entity, "version", Num(1)))),
             Show(Get(info, "created", Get(entity, "created", Str("")))),
             Show(Get(info, "user", Get(entity, "user", Str("")))),
             Join(folder, name), "")
  }

  function SceneCard(folder: string, name: string, ctx: Context, files: map<string, Json>, icon: string): CardInfo
  {
    SceneCardWith(folder, name, StageOf(Stem(name), StagesFor(ctx.mode)), EntityMeta(folder, ctx, files), files, icon)
  }

  /** The cards of the scene files `names` of a folder with context `ctx`,
      in the order of `names`. */
  function CardsFor(folder: string, names: seq<string>, ctx: Context, files: map<string, Json>, icon: string): seq<CardInfo>
  {
    if names == [] then []
    else CardsFor(folder, names[..|names| - 1], ctx, files, icon) + [SceneCard(folder, names[|names| - 1], ctx, files, icon)]
  }

  lemma CardsForStep(folder: string, names: seq<string>, ctx: Context, files: map<string, Json>, icon: string, i: nat)
    requires i < |names|
    ensures CardsFor(folder, names[..i + 1], ctx, files, icon)
         == CardsFor(folder, names[..i], ctx, files, icon) + [SceneCard(folder, names[i], ctx, files, icon)]
  {
    assert names[..i + 1][..i] == names[..i];
  }

  /** Every scene file named has its card. */
  lemma {:induction false} CardsForMember(folder: string, names: seq<string>, ctx: Context, files: map<string, Json>,
                                          icon: string, name: string)
    requires name in names
    ensures SceneCard(folder, name, ctx, files, icon) in CardsFor(folder, names, ctx, files, icon)
  {
    var n := |names| - 1;
    if names[n] != name {
      assert name in names[..n] by {
        var i :| 0 <= i < |names| && names[i] == name;
        assert names[..n][i] == name;
      }
      CardsForMember(folder, names[..n], ctx, files, icon, name);
    }
  }

  /** The cards `load_from` shows for a folder that exists. */
  function SceneCards(folder: string, listing: seq<Entry>, files: map<string, Json>, icon: string): seq<CardInfo>
  {
    CardsFor(folder, BlendFiles(listing), ModeOf(folder), files, icon)
  }

  /** ".blend" is already in lower case. */
  lemma BlendExtIsLower()
    ensures Lower(BlendExt) == BlendExt
  {
    LowerIs(BlendExt, BlendExt);
  }

  /** The card of a scene file this program created, read with the
      sidecar it wrote, shows the stage, "v001", the creation time and the
      user the sidecar recorded. */
  lemma CreatedSceneCard(folder: string, files: map<string, Json>, icon: string,
                         short: string, k: nat, user: string, stamp: string, category: Option<string>)
    requires ModeOf(folder).mode != NoMode && k < |StagesFor(ModeOf(folder).mode)|
    requires var f := NewSceneFile(folder, short, ModeOf(folder).entity, StagesFor(ModeOf(folder).mode)[k], user, stamp, category);
      f.sidecar.path in files && files[f.sidecar.path] == f.sidecar.content
    ensures var st := StagesFor(ModeOf(folder).mode)[k];
      SceneCard(folder, SceneFileName(short, ModeOf(folder).entity, st), ModeOf(folder), files, icon)
        == CardInfo(st, icon, "v001", stamp, user, NewSceneFile(folder, short, ModeOf(folder).entity, st, user, stamp, category).blend, "")
  {
    var ctx := ModeOf(folder);
    var st := StagesFor(ctx.mode)[k];
    var name := SceneFileName(short, ctx.entity, st);
    SceneFileNameSplits(short, ctx.entity, st);
    StageOfCreatedFile(short, ctx.entity, ctx.mode, k);
    FirstVersionLabel();
  }

  /** Creating the scene file of a stage and then loading the folder shows
      it: among the cards is one with the stage as title, "v001", the
      creation time and the user the sidecar recorded, opening the new
      file. */
  lemma CreatedSceneIsShown(folder: string, listing: seq<Entry>, files: map<string, Json>, icon: string,
                            short: string, k: nat, user: string, stamp: string, category: Option<string>)
    requires ModeOf(folder).mode != NoMode && k < |StagesFor(ModeOf(folder).mode)|
    requires var f := NewSceneFile(folder, short, ModeOf(folder).entity, StagesFor(ModeOf(folder).mode)[k], user, stamp, category);
      && Entry(SceneFileName(short, ModeOf(folder).entity, StagesFor(ModeOf(folder).mode)[k]), File) in listing
      && f.sidecar.path in files && files[f.sidecar.path] == f.sidecar.content
    ensures var st := StagesFor(ModeOf(folder).mode)[k];
      CardInfo(st, icon, "v001", stamp, user, NewSceneFile(folder, short, ModeOf(folder).entity, st, user, stamp, category).blend, "")
        in SceneCards(folder, listing, files, icon)
  {
    var ctx := ModeOf(folder);
    var name := SceneFileName(short, ctx.entity, StagesFor(ctx.mode)[k]);
    SceneFileNameSplits(short, ctx.entity, StagesFor(ctx.mode)[k]);
    BlendExtIsLower();
    BlendFilesMembers(listing, name);
    CreatedSceneCard(folder, files, icon, short, k, user, stamp, category);
    CardsForMember(folder, BlendFiles(listing), ctx, files, icon, name);
  }

  // ----------------------------------------------------------- stage menu

  /** The stage key of a listed name: the text after the last '_' of its
      stem, lower-cased. */
  function StageKey(name: string): string
  {
    Lower(LastSegment(Stem(name), '_'))
  }

  /** A name `show_stage_menu` counts: it ends in ".blend" in any case. */
  predicate IsBlendName(name: string)
  {
    EndsWith(Lower(name), BlendExt)
  }

  /** A listed name that counts as a present stage, with its key. */
  predicate HasKey(name: string, key: string)
  {
    IsBlendName(name) && StageKey(name) == key
  }

  /** The keys of the stages present: one per name ending in ".blend" in
      any case (of any kind), in listing order. */
  function ExistingKeys(names: seq<string>): seq<string>
  {
    MapIf(names, IsBlendName, StageKey)
  }

  lemma ExistingKeysMembers(names: seq<string>, key: string)
    ensures key in ExistingKeys(names) <==> exists i :: 0 <= i < |names| && HasKey(names[i], key)
  {
    MapIfMembers(names, IsBlendName, StageKey, key);
  }

  /** The stages the menu offers: those whose lower-case name is no
      present key, in menu order. */
  function Offered(stages: seq<string>, keys: seq<string>): seq<string>
  {
    if stages == [] then []
    else
      var st := stages[|stages| - 1];
      Offered(stages[..|stages| - 1], keys) + (if Lower(st) !in keys then [st] else [])
  }

  lemma {:induction false} OfferedMembers(stages: seq<string>, keys: seq<string>, st: string)
    ensures st in Offered(stages, keys) <==> st in stages && Lower(st) !in keys
  {
    if stages != [] {
      var n := |stages| - 1;
      OfferedMembers(stages[..n], keys, st);
      assert stages == stages[..n] + [stages[n]];
    }
  }

  /** The two loops of `show_stage_menu` that build the menu. */
  method StageMenu(names: seq<string>, stages: seq<string>) returns (offered: seq<string>)
    ensures offered == Offered(stages, ExistingKeys(names))
  {
    var keys := [];
    for i := 0 to |names|
      invariant keys == ExistingKeys(names[..i])
    {
      assert names[..i + 1][..i] == names[..i];
      if IsBlendName(names[i]) {
        keys := keys + [StageKey(names[i])];
      }
    }
    assert names[..|names|] == names;
    offered := [];
    for i := 0 to |stages|
      invariant offered == Offered(stages[..i], keys)
    {
      assert stages[..i + 1][..i] == stages[..i];
      if Lower(stages[i]) !in keys {
        offered := offered + [stages[i]];
      }
    }
    assert stages[..|stages|] == stages;
  }

  /** Once the scene file of a stage is in the folder, the menu no longer
      offers that stage. */
  lemma CreatedStageNotOffered(names: seq<string>, short: string, entity: string, stages: seq<string>, k: nat)
    requires k < |stages| && NoUnderscore(stages)
    ensures stages[k] !in Offered(stages, ExistingKeys(names + [SceneFileName(short, entity, stages[k])]))
  {
    var st := stages[k];
    var name := SceneFileName(short, entity, st);
    var all := names + [name];
    SceneFileNameSplits(short, entity, st);
    assert SceneStem(short, entity, st) == (short + "_" + entity) + ['_'] + Lower(st);
    LastSegmentAfter(short + "_" + entity, '_', Lower(st));
    LowerLower(st);
    assert StageKey(name) == Lower(st);
    LowerAppend(SceneStem(short, entity, st), BlendExt);
    BlendExtIsLower();
    assert Lower(name) == Lower(SceneStem(short, entity, st)) + BlendExt;
    assert IsBlendName(name) by {
      assert Lower(name)[|Lower(name)| - |BlendExt|..] == BlendExt;
    }
    assert all[|names|] == name && HasKey(all[|names|], Lower(st));
    ExistingKeysMembers(all, Lower(st));
    OfferedMembers(stages, ExistingKeys(all), st);
  }

  /** `os.path.splitext(blend_path)[0] + ".json"`: the sidecar beside a
      scene file. */
  function JsonBeside(path: string): string
  {
    LastSegmentShape(path, '/');
    ExtShape(Basename(path));
    path[..|path| - |Ext(Basename(path))|] + ".json"
  }

  /** Deleting a scene file this program created removes the sidecar it
      wrote. */
  lemma DeletedSidecarIsWritten(folder: string, short: string, entity: string, stage: string, user: string,
                                stamp: string, category: Option<string>)
    requires '/' !in SceneFileName(short, entity, stage)
    ensures var f := NewSceneFile(folder, short, entity, stage, user, stamp, category);
      JsonBeside(f.blend) == f.sidecar.path
  {
    var name := SceneFileName(short, entity, stage);
    var path := Join(folder, name);
    SceneFileNameSplits(short, entity, stage);
    NewSceneFileShape(folder, short, entity, stage, user, stamp, category);
    assert path == folder + ['/'] + name;
    LastSegmentAfter(folder, '/', name);
    assert path[..|path| - |BlendExt|] == folder + "/" + SceneStem(short, entity, stage);
  }

  // ---------------------------------------------------------- stage choice

  /** What a stage menu leads to before any file is touched. */
  datatype StageChoice = StageChoice(ctx: Context, short: string, stage: string)

  /** The guards of `show_stage_menu`, in order: the folder must belong to
      a named asset or shot, `latest_project.json` must give a short
      name, the menu must offer something, and the user must pick one of
      its entries (`choice` is the position picked, none when the menu is
      dismissed). */
  function PlanStage(folder: string, projectFile: Option<Json>, names: seq<string>, choice: Option<nat>): Option<StageChoice>
  {
    var ctx := ModeOf(folder);
    var short := if projectFile.Some? then StrField(projectFile.value, "short") else "";
    var offered := Offered(StagesFor(ctx.mode), ExistingKeys(names));
    if ctx.mode == NoMode || ctx.entity == "" || short == "" || offered == [] || choice.None? || choice.value >= |offered|
    then None
    else Some(StageChoice(ctx, short, offered[choice.value]))
  }

  /** A stage the menu leads to is one of the folder's stages and has no
      scene file yet. */
  lemma PlannedStageIsMissing(folder: string, projectFile: Option<Json>, names: seq<string>, choice: Option<nat>)
    ensures var plan := PlanStage(folder, projectFile, names, choice);
      plan.Some? ==>
        && plan.value.ctx == ModeOf(folder) && plan.value.ctx.mode != NoMode && plan.value.short != ""
        && plan.value.stage in StagesFor(plan.value.ctx.mode)
        && Lower(plan.value.stage) !in ExistingKeys(names)
  {
    var plan := PlanStage(folder, projectFile, names, choice);
    if plan.Some? {
      var ctx := ModeOf(folder);
      var offered := Offered(StagesFor(ctx.mode), ExistingKeys(names));
      assert plan.value.stage in offered;
      OfferedMembers(StagesFor(ctx.mode), ExistingKeys(names), plan.value.stage);
    }
  }

  /** The user a new scene file records, and its category. */
  function CategoryOf(ctx: Context): Option<string>
  {
    if ctx.mode == AssetMode then Some(ctx.category) else None
  }

  /** The cards of the scene files `names`, one by one. */
  method SceneInfos(folder: string, names: seq<string>, ctx: Context, files: map<string, Json>, icon: string)
    returns (infos: seq<CardInfo>)
    ensures infos == CardsFor(folder, names, ctx, files, icon)
  {
    var entity := EntityMeta(folder, ctx, files);
    var stages := StagesFor(ctx.mode);
    infos := [];
    for i := 0 to |names|
      invariant infos == CardsFor(folder, names[..i], ctx, files, icon)
    {
      var stage := MatchStage(Stem(names[i]), stages);
      infos := infos + [SceneCardWith(folder, names[i], stage, entity, files, icon)];
      CardsForStep(folder, names, ctx, files, icon, i);
    }
    assert names[..|names|] == names;
  }

  // ------------------------------------------------------------------ tab

  /** `SceneTab` */
  class SceneTab {
    const tab: CardTab
    /** the "path" of `latest_project.json` when the tab was made, or "" */
    const projectRoot: string
    /** the folder last loaded ("" before any) */
    var currentFolder: string

    /** The tab starts empty in list view; it knows its project when
        `latest_project.json` could be read.
        `productsFolder` is `BASE_DIR/Products`, where its card tab starts. */
    constructor (productsFolder: string, projectFile: Option<Json>)
      ensures projectRoot == (if projectFile.Some? then StrField(projectFile.value, "path") else "")
      ensures fresh(tab) && tab.cards == [] && tab.viewMode == ListView && currentFolder == ""
      ensures tab.productsFolder == productsFolder && tab.folderPath == productsFolder
    {
      projectRoot := if projectFile.Some? then StrField(projectFile.value, "path") else "";
      currentFolder := "";
      var t := new CardTab(productsFolder);
      t.SetViewMode(ListView);
      tab := t;
    }

    /** `load_from`: the cards of the folder's `.blend` files, in name
        order, unselected, in the list view; none when the folder is
        unset or not a directory (`isDir`). `listing` is the folder's
        content and `files` the JSON files that exist and parse. */
    method LoadFrom(folder: string, isDir: bool, listing: seq<Entry>, files: map<string, Json>, icon: string)
      modifies this, tab
      ensures currentFolder == folder && tab.viewMode == ListView && tab.page == 1
      ensures Infos(tab.cards) == if folder != "" && isDir then SceneCards(folder, listing, files, icon) else []
      ensures fresh(set c | c in tab.cards)
      ensures forall c :: c in tab.cards ==> !c.selected && c.view == ListView
    {
      currentFolder := folder;
      tab.Clear();
      if folder != "" && isDir {
        var ctx := DetectMode(folder);
        AppendScenes(folder, BlendFiles(listing), ctx, files, icon);
      }
      tab.SetViewMode(ListView);
    }

    /** The file loop of `load_from`, in two passes: the cards of the
        scene files are worked out, each stage found by `MatchStage`, then
        added one by one. */
    method AppendScenes(folder: string, names: seq<string>, ctx: Context, files: map<string, Json>, icon: string)
      requires tab.cards == []
      modifies tab
      ensures Infos(tab.cards) == CardsFor(folder, names, ctx, files, icon)
      ensures fresh(set c | c in tab.cards)
      ensures forall c :: c in tab.cards ==> !c.selected
      ensures tab.viewMode == old(tab.viewMode)
    {
      var infos := SceneInfos(folder, names, ctx, files, icon);
      tab.AppendAll(infos, ThumbnailView);
    }

    /** The delete action of a scene card: the card's file goes, then the
        sidecar beside it when that exists (`existing`), then the current
        folder is loaded again (from `isDir`, `listing` and `files` as
        they are afterwards). */
    method DeleteWithJson(card: Card, existing: set<string>, isDir: bool, listing: seq<Entry>,
                          files: map<string, Json>, icon: string) returns (removed: seq<string>)
      modifies this, tab
      ensures removed == [card.filePath] + if JsonBeside(card.filePath) in existing then [JsonBeside(card.filePath)] else []
      ensures currentFolder == old(currentFolder) && tab.viewMode == ListView
      ensures Infos(tab.cards) == if currentFolder != "" && isDir then SceneCards(currentFolder, listing, files, icon) else []
      ensures forall c :: c in tab.cards ==> !c.selected && c.view == ListView
    {
      removed := [card.filePath];
      var sidecar := JsonBeside(card.filePath);
      if sidecar in existing {
        removed := removed + [sidecar];
      }
      LoadFrom(currentFolder, isDir, listing, files, icon);
    }

    /** `show_stage_menu`, from the menu to the new file: the menu is built
        from the names in the current folder, the user picks `choice`; the
        template is copied when it exists and the copy succeeds (`copyOk`)
        and the sidecar is written with the user of `latest_user.json`
        (read only when the tab knows its project) and `stamp`. The folder
        is then loaded again (as `after` and `files` give it) and only the
        new file's card is selected. Any guard that fails leaves the tab
        as it was. */
    method CreateStageFile(projectFile: Option<Json>, names: seq<string>, choice: Option<nat>, templateExists: bool,
                           copyOk: bool, userFile: Option<Json>, stamp: string, isDir: bool, after: seq<Entry>,
                           files: map<string, Json>, icon: string) returns (made: Option<SceneFile>)
      modifies this, tab
      ensures var plan := PlanStage(old(currentFolder), projectFile, names, choice);
        && (made.Some? <==> plan.Some? && templateExists && copyOk)
        && (made.Some? ==> made.value == NewSceneFile(old(currentFolder), plan.value.short, plan.value.ctx.entity,
                                                     plan.value.stage, LatestUser(projectRoot, userFile), stamp,
                                                     CategoryOf(plan.value.ctx)))
      ensures made.None? ==> unchanged(this, tab)
      ensures made.Some? ==>
        && currentFolder == old(currentFolder) && tab.viewMode == ListView
        && Infos(tab.cards) == (if currentFolder != "" && isDir then SceneCards(currentFolder, after, files, icon) else [])
        && forall c :: c in tab.cards ==>
             c.view == ListView
             && (c.selected <==> FileIndex(tab.cards, made.value.blend) >= 0 && c == tab.cards[FileIndex(tab.cards, made.value.blend)])
    {
      var plan := ChooseStage(projectFile, names, choice);
      if plan.None? || !templateExists || !copyOk {
        return None;
      }
      var p := plan.value;
      var file := NewSceneFile(currentFolder, p.short, p.ctx.entity, p.stage, LatestUser(projectRoot, userFile), stamp,
                               CategoryOf(p.ctx));
      made := Some(file);
      ReloadAndSelect(file.blend, isDir, after, files, icon);
    }

    /** The end of `show_stage_menu`: the current folder is loaded again
        and only the first card for `path` is selected. */
    method ReloadAndSelect(path: string, isDir: bool, after: seq<Entry>, files: map<string, Json>, icon: string)
      modifies this, tab
      ensures currentFolder == old(currentFolder) && tab.viewMode == ListView
      ensures Infos(tab.cards) == if currentFolder != "" && isDir then SceneCards(currentFolder, after, files, icon) else []
      ensures forall c :: c in tab.cards ==>
        c.view == ListView && (c.selected <==> FileIndex(tab.cards, path) >= 0 && c == tab.cards[FileIndex(tab.cards, path)])
    {
      LoadFrom(currentFolder, isDir, after, files, icon);
      var found := tab.SelectFile(path);
    }

    /** The guards and the menu of `show_stage_menu`. */
    method ChooseStage(projectFile: Option<Json>, names: seq<string>, choice: Option<nat>) returns (plan: Option<StageChoice>)
      ensures plan == PlanStage(currentFolder, projectFile, names, choice)
    {
      var ctx := DetectMode(currentFolder);
      if ctx.mode == NoMode || ctx.entity == "" {
        return None;
      }
      var short := if projectFile.Some? then StrField(projectFile.value, "short") else "";
      if short == "" {
        return None;
      }
      var offered := StageMenu(names, StagesFor(ctx.mode));
      if offered == [] || choice.None? || choice.value >= |offered| {
        return None;
      }
      return Some(StageChoice(ctx, short, offered[choice.value]));
    }
  }
}
