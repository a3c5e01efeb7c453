/** How scene files are named across the shot tab, the asset tab and the
    scene tab: `<short>_<entity>_<stage in lower case>.blend`, next to a
    JSON sidecar with the same stem that records the stage, the user, the
    first version "001" and the creation time. */
module SceneNaming {
  import opened Common
  import opened Text

  /** The stages of an asset and of a shot, in menu order. */
  const AssetStages: seq<string> := ["Modeling", "Texturing", "Rigging", "Groom"]
  const ShotStages: seq<string> := ["Animation", "Blocking", "Lighting", "Vfx"]

  const BlendExt := ".blend"
  const UserKey := "last_user"
  const FirstFileVersion := "001"

  /** The user a new scene file records: the "last_user" of
      `latest_user.json`, read only when the tab knows its project root;
      "" otherwise. */
  function LatestUser(projectRoot: string, userFile: Option<Json>): string
  {
    if projectRoot != "" && userFile.Some? then StrField(userFile.value, UserKey) else ""
  }

  /** A JSON file the program writes. */
  datatype FileWrite = FileWrite(path: string, content: Json)

  /** A scene file copied from the template, and its sidecar. */
  datatype SceneFile = SceneFile(blend: string, sidecar: FileWrite)

  function SceneStem(short: string, entity: string, stage: string): string
  {
    short + "_" + entity + "_" + Lower(stage)
  }

  /** `f"{short}_{entity}_{stage.lower()}.blend"` */
  function SceneFileName(short: string, entity: string, stage: string): string
  {
    SceneStem(short, entity, stage) + BlendExt
  }

  /** `os.path.splitext(name)[0] + ".json"` */
  function SidecarName(name: string): string
  {
    Stem(name) + ".json"
  }

  /** The sidecar of a new scene file; the "type" key (the asset category)
      is present exactly for assets. */
  function SceneMetadata(entity: string, stage: string, user: string, stamp: string, category: Option<string>): (m: Json)
    ensures m.Keys == {"name", "stage", "user", "version", "created"} + (if category.Some? then {"type"} else {})
    ensures m["name"] == Str(entity) && m["stage"] == Str(stage) && m["version"] == Str(FirstFileVersion)
    ensures category.Some? ==> m["type"] == Str(category.value)
  {
    var base := map["name" := Str(entity), "stage" := Str(stage), "user" := Str(user),
                     "version" := Str(FirstFileVersion), "created" := Str(stamp)];
    if category.Some? then base["type" := Str(category.value)] else base
  }

  /** The scene file for `stage` in `folder`, and its sidecar. */
  function NewSceneFile(folder: string, short: string, entity: string, stage: string, user: string, stamp: string,
                        category: Option<string>): SceneFile
  {
    var name := SceneFileName(short, entity, stage);
    SceneFile(Join(folder, name), FileWrite(Join(folder, SidecarName(name)), SceneMetadata(entity, stage, user, stamp, category)))
  }

  /** `splitext` takes a scene file name apart into its stem and ".blend",
      and the sidecar shares that stem. */
  lemma SceneFileNameSplits(short: string, entity: string, stage: string)
    ensures Stem(SceneFileName(short, entity, stage)) == SceneStem(short, entity, stage)
    ensures Ext(SceneFileName(short, entity, stage)) == BlendExt
    ensures SidecarName(SceneFileName(short, entity, stage)) == SceneStem(short, entity, stage) + ".json"
    ensures Stem(SidecarName(SceneFileName(short, entity, stage))) == SceneStem(short, entity, stage)
  {
    var stem := SceneStem(short, entity, stage);
    assert stem[|short|] == '_';
    ExtAfter(stem, BlendExt);
    ExtAfter(stem, ".json");
  }

  /** A new scene file sits in `folder` under its scene name; its sidecar
      sits beside it under the same stem and records the stage, the entity,
      the first version and, for assets, the category. */
  lemma NewSceneFileShape(folder: string, short: string, entity: string, stage: string, user: string, stamp: string,
                          category: Option<string>)
    ensures var f := NewSceneFile(folder, short, entity, stage, user, stamp, category);
      && f.blend == Join(folder, SceneStem(short, entity, stage) + BlendExt)
      && f.sidecar.path == Join(folder, SceneStem(short, entity, stage) + ".json")
      && f.sidecar.content["name"] == Str(entity) && f.sidecar.content["stage"] == Str(stage)
      && f.sidecar.content["version"] == Str(FirstFileVersion)
      && ("type" in f.sidecar.content <==> category.Some?)
      && (category.Some? ==> f.sidecar.content["type"] == Str(category.value))
  {
    SceneFileNameSplits(short, entity, stage);
  }
}
