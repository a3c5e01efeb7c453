/** The "remember the last selected folder" memo that the shot tab
    (`latest_shot.json`, key "shot_path") and the asset tab
    (`latest_asset.json`, key "asset_path") keep: a remembered path in
    memory and a one-key JSON file on disk. */
module Memo {
  import opened Common

  /** What loading remembers: the stored path if the file exists and the
      path is non-empty and names an existing directory, otherwise nothing.
      `dirs` are the paths that are existing directories. */
  function Recall(stored: Option<Json>, key: string, dirs: set<string>): (r: Option<string>)
    ensures stored.None? ==> r.None?
    ensures r.Some? <==> stored.Some? && StrField(stored.value, key) != "" && StrField(stored.value, key) in dirs
    ensures r.Some? ==> r.value == StrField(stored.value, key)
  {
    if stored.None? then None
    else
      var p := StrField(stored.value, key);
      if p != "" && p in dirs then Some(p) else None
  }

  /** Reading back the file a write produced gives the written path, as long
      as it still names a directory. */
  lemma WriteThenRecall(key: string, path: string, dirs: set<string>)
    ensures Recall(Some(map[key := Str(path)]), key, dirs) == if path != "" && path in dirs then Some(path) else None
  {
    assert StrField(map[key := Str(path)], key) == path;
  }

  class LatestPath {
    /** the JSON key: "shot_path" or "asset_path" */
    const key: string
    /** `_last_shot_path` / `_last_asset_path` */
    var remembered: Option<string>
    /** the memo file: None when it does not exist */
    var stored: Option<Json>

    /** The remembered path, when there is one, is the one the file holds. */
    predicate Agrees()
      reads this
    {
      remembered.Some? ==> stored.Some? && StrField(stored.value, key) == remembered.value
    }

    /** The path a reload selects: the remembered one, unless it is empty. */
    function Target(): Option<string>
      reads this
    {
      if remembered.Some? && remembered.value != "" then remembered else None
    }

    /** The tab starts with nothing remembered and the file as found. */
    constructor (key: string, stored: Option<Json>)
      ensures this.key == key && remembered.None? && this.stored == stored
      ensures Agrees()
    {
      this.key := key;
      remembered := None;
      this.stored := stored;
    }

    /** `_write_latest_shot` / `_write_latest_asset`: nothing happens when
        `path` is already remembered; otherwise the file is rewritten with
        `path` and `path` is remembered, unless the write fails
        (`writable` false), which changes nothing. */
    method Write(path: string, writable: bool)
      modifies this
      ensures old(remembered) == Some(path) || !writable ==>
        remembered == old(remembered) && stored == old(stored)
      ensures old(remembered) != Some(path) && writable ==>
        remembered == Some(path) && stored == Some(map[key := Str(path)])
      ensures old(Agrees()) ==> Agrees()
    {
      if remembered == Some(path) {
        return;
      }
      if writable {
        stored := Some(map[key := Str(path)]);
        remembered := Some(path);
        assert StrField(stored.value, key) == path;
      }
    }

    /** `_load_latest_shot` / `_load_latest_asset`. */
    method Load(dirs: set<string>)
      modifies this
      ensures remembered == Recall(stored, key, dirs) && stored == old(stored)
      ensures Agrees()
    {
      if stored.None? {
        remembered := None;
      } else {
        var p := StrField(stored.value, key);
        if p != "" && p in dirs {
          remembered := Some(p);
        } else {
          remembered := None;
        }
      }
    }
  }
}
