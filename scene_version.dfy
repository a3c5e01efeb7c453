/** The "next version" shown for an asset's scene file: the program looks in
    the asset's `.old` folder for `<short>_<name>_vNNN.blend` files and shows
    one more than the highest NNN, zero-padded to three digits. */
module SceneVersion {
  import opened Common
  import opened Text

  /** `<short>_<name>_v`, the prefix every archived version file starts with. */
  function VersionPrefix(short: string, name: string): string
  {
    short + "_" + name + "_v"
  }

  /** The version number an entry of `.old` contributes: only files that start
      with the prefix and end in ".blend", and only when what lies between
      them is a number; everything else contributes nothing. */
  function ParsedVersion(e: Entry, prefix: string): Option<nat>
  {
    var f := e.name;
    if e.kind == File && StartsWith(f, prefix) && EndsWith(f, ".blend")
       && |prefix| + 6 <= |f| && IsDigits(f[|prefix|..|f| - 6])
    then Some(ParseNat(f[|prefix|..|f| - 6]))
    else None
  }

  /** Every version number the listing yields, in listing order. */
  function Versions(files: seq<Entry>, prefix: string): seq<nat>
  {
    if files == [] then []
    else
      var last := ParsedVersion(files[|files| - 1], prefix);
      Versions(files[..|files| - 1], prefix) + (if last.Some? then [last.value] else [])
  }

  /** The displayed version: "v001" without a usable version file, otherwise "v"
      followed by the highest version plus one, padded to three digits. */
  function NextVersion(oldDir: Option<seq<Entry>>, short: string, name: string): string
  {
    if oldDir.None? then "v001"
    else
      var vs := Versions(oldDir.value, VersionPrefix(short, name));
      if vs == [] then "v001" else "v" + Pad3(Max(vs) + 1)
  }

  /** One more entry adds its version, if it has one, at the end. */
  lemma VersionsStep(files: seq<Entry>, prefix: string, i: nat)
    requires i < |files|
    ensures var v := ParsedVersion(files[i], prefix);
      Versions(files[..i + 1], prefix) == if v.Some? then Versions(files[..i], prefix) + [v.value] else Versions(files[..i], prefix)
  {
    assert files[..i + 1][..i] == files[..i];
  }

  /** The loop of `show_asset_details` that scans `.old` (None when the folder
      does not exist) and computes the version shown. */
  method InferNextVersion(oldDir: Option<seq<Entry>>, short: string, name: string) returns (shown: string)
    ensures shown == NextVersion(oldDir, short, name)
  {
    shown := "v001";
    if oldDir.None? {
      return;
    }
    var files := oldDir.value;
    var prefix := VersionPrefix(short, name);
    var found := false;
    var best := 0;
    var i := 0;
    while i < |files|
      invariant 0 <= i <= |files|
      invariant found <==> Versions(files[..i], prefix) != []
      invariant found ==> best == Max(Versions(files[..i], prefix))
    {
      var v := ParsedVersion(files[i], prefix);
      VersionsStep(files, prefix, i);
      if v.Some? {
        MaxAppend(Versions(files[..i], prefix), v.value);
        if !found || v.value > best {
          best := v.value;
        }
        found := true;
      }
      i := i + 1;
    }
    assert files[..i] == files;
    if found {
      shown := "v" + Pad3(best + 1);
    }
  }

  /** A file name can only be counted when it starts with the prefix, ends in
      ".blend" and has a number in between; any other entry is skipped. */
  lemma {:induction false} VersionsComeFromMatchingFiles(files: seq<Entry>, prefix: string, v: nat)
    ensures v in Versions(files, prefix) <==>
      exists i :: 0 <= i < |files| && ParsedVersion(files[i], prefix) == Some(v)
  {
    if files != [] {
      var init := files[..|files| - 1];
      VersionsComeFromMatchingFiles(init, prefix, v);
      if v in Versions(files, prefix) && v !in Versions(init, prefix) {
        assert ParsedVersion(files[|files| - 1], prefix) == Some(v);
      }
      if exists i :: 0 <= i < |files| && ParsedVersion(files[i], prefix) == Some(v) {
        var i :| 0 <= i < |files| && ParsedVersion(files[i], prefix) == Some(v);
        if i < |files| - 1 {
          assert init[i] == files[i];
        }
      }
    }
  }

  /** The shown version is "v" and at least three digits; it is "v001" when no
      file yields a version, and otherwise its number is one more than the
      highest version found, so it is above every archived version. */
  lemma NextVersionIsAboveAll(oldDir: Option<seq<Entry>>, short: string, name: string)
    ensures var shown := NextVersion(oldDir, short, name);
      && |shown| >= 4 && shown[0] == 'v' && IsDigits(shown[1..])
      && (oldDir.None? || Versions(oldDir.value, VersionPrefix(short, name)) == [] ==> shown == "v001")
      && (forall f :: oldDir == Some(f) ==>
            forall v :: v in Versions(f, VersionPrefix(short, name)) ==> v < ParseNat(shown[1..]))
  {
    var shown := NextVersion(oldDir, short, name);
    if oldDir.Some? && Versions(oldDir.value, VersionPrefix(short, name)) != [] {
      var m := Max(Versions(oldDir.value, VersionPrefix(short, name)));
      PadRoundTrip(m + 1);
      assert shown[1..] == Pad3(m + 1);
    } else {
      assert shown[1..] == "001";
      assert ParseNat("001") == 1 by {
        assert "001"[..2] == "00";
        assert "00"[..1] == "0";
        assert "0"[..0] == "";
      }
    }
  }
}
