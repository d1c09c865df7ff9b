/**
 * `lib/tag-manager.js`: upload tags configured at three levels (project, apps directory, app),
 * loaded in that order into an insertion-ordered map and merged so that the more specific
 * configuration wins per tag.
 *
 * The files are an oracle from path to `Absent`, `Unparsable` or the parsed JSON value.
 */
module TagManager {
  import opened Wrappers
  import opened Json
  import opened Assoc
  import Utils
  import MM = ManifestManager
  import Arweave

  const ConfigFileName := "upload-tags.json"
  const RootConfigPath := "./upload-tags.json"
  const AppsConfigPath := "./apps/upload-tags.json"

  /** The error reading `config.customTags` throws for a configuration file holding `null`. */
  const NullConfigError := "Cannot read properties of null (reading 'customTags')"

  /** The own entries `Object.assign` copies from a configuration's truthy `customTags`; nothing otherwise. */
  function CustomTagEntries(config: Json): (r: seq<(string, Json)>)
    ensures !FieldSet(config, "customTags") ==> r == []
  {
    var tags := Field(config, "customTags");
    if tags.Some? && Truthy(tags.value) then MM.OverrideEntries(tags.value) else []
  }

  /** The merged `customTags` of the configurations, in load order, later ones winning per key. */
  function MergedTags(configs: seq<Json>): seq<(string, Json)>
    decreases |configs|
  {
    if |configs| == 0 then []
    else Assign(MergedTags(configs[..|configs| - 1]), CustomTagEntries(configs[|configs| - 1]))
  }

  /** The values of the loaded configurations, in load order. */
  function Values(configs: seq<(string, Json)>): (r: seq<Json>)
    ensures |r| == |configs|
  {
    seq(|configs|, i requires 0 <= i < |configs| => configs[i].1)
  }

  /** The index of the last configuration whose `customTags` sets `k`, or -1 when none does. */
  function LastSetter(configs: seq<Json>, k: string): (i: int)
    ensures -1 <= i < |configs|
    ensures i >= 0 ==> k in Keys(CustomTagEntries(configs[i]))
    decreases |configs|
  {
    if |configs| == 0 then -1
    else if k in Keys(CustomTagEntries(configs[|configs| - 1])) then |configs| - 1
    else LastSetter(configs[..|configs| - 1], k)
  }

  /** No configuration after the last setter sets the key. */
  lemma {:induction false} LastSetterIsLast(configs: seq<Json>, k: string)
    ensures forall j :: LastSetter(configs, k) < j < |configs| ==> k !in Keys(CustomTagEntries(configs[j]))
    decreases |configs|
  {
    if |configs| > 0 && k !in Keys(CustomTagEntries(configs[|configs| - 1])) {
      var init := configs[..|configs| - 1];
      LastSetterIsLast(init, k);
      forall j | LastSetter(configs, k) < j < |configs| - 1 ensures k !in Keys(CustomTagEntries(configs[j])) {
        assert configs[j] == init[j];
      }
    }
  }

  /** A merged tag holds the value the last configuration setting it gives; a tag no configuration sets is absent. */
  lemma {:induction false} MergedTagsLookup(configs: seq<Json>, k: string)
    ensures Lookup(MergedTags(configs), k)
      == if LastSetter(configs, k) < 0 then None
         else Some(LastValue(CustomTagEntries(configs[LastSetter(configs, k)]), k))
    decreases |configs|
  {
    if |configs| > 0 {
      var init := configs[..|configs| - 1];
      MergedTagsLookup(init, k);
      LookupAssign(MergedTags(init), CustomTagEntries(configs[|configs| - 1]), k);
    }
  }

  /** A configuration without truthy `customTags` changes nothing. */
  lemma WithoutCustomTagsNoEffect(configs: seq<Json>, config: Json)
    requires !FieldSet(config, "customTags")
    ensures MergedTags(configs + [config]) == MergedTags(configs)
  {
    assert (configs + [config])[..|configs|] == configs;
  }

  /** The merged tags have distinct names. */
  lemma {:induction false} MergedTagsDistinct(configs: seq<Json>)
    ensures DistinctKeys(MergedTags(configs))
    decreases |configs|
  {
    if |configs| > 0 {
      MergedTagsDistinct(configs[..|configs| - 1]);
      AssignDistinct(MergedTags(configs[..|configs| - 1]), CustomTagEntries(configs[|configs| - 1]));
    }
  }

  /** The tags `getAllTags` emits for merged entries: one `{ name, value }` per non-null value, in order. */
  function TagsOf(entries: seq<(string, Json)>): seq<Arweave.Tag>
    decreases |entries|
  {
    if |entries| == 0 then []
    else
      var e := entries[|entries| - 1];
      TagsOf(entries[..|entries| - 1]) + (if e.1 != JNull then [Arweave.Tag(e.0, e.1)] else [])
  }

  /** Exactly the entries with a non-null value become tags. */
  lemma {:induction false} TagsOfMembership(entries: seq<(string, Json)>, t: Arweave.Tag)
    ensures t in TagsOf(entries) <==> exists i :: 0 <= i < |entries| && entries[i].1 != JNull && t == Arweave.Tag(entries[i].0, entries[i].1)
    decreases |entries|
  {
    if |entries| > 0 {
      var init := entries[..|entries| - 1];
      TagsOfMembership(init, t);
      if exists i :: 0 <= i < |init| && init[i].1 != JNull && t == Arweave.Tag(init[i].0, init[i].1) {
        var i :| 0 <= i < |init| && init[i].1 != JNull && t == Arweave.Tag(init[i].0, init[i].1);
        assert entries[i] == init[i];
      }
      if exists i :: 0 <= i < |entries| && entries[i].1 != JNull && t == Arweave.Tag(entries[i].0, entries[i].1) {
        var i :| 0 <= i < |entries| && entries[i].1 != JNull && t == Arweave.Tag(entries[i].0, entries[i].1);
        if i < |init| {
          assert init[i] == entries[i];
        }
      }
    }
  }

  /** `TagManager` */
  class TagManager {
    /** `appPath`; the empty string stands for `null`. */
    const appPath: string
    /** `configs`: path to parsed configuration, in insertion order. */
    var configs: seq<(string, Json)>

    constructor(appPath: string)
      ensures this.appPath == appPath && configs == []
    {
      this.appPath := appPath;
      configs := [];
    }

    /** `getConfigPaths`: project, apps directory, then the app's own file when there is an app path. */
    function GetConfigPaths(): (r: seq<string>)
      ensures |r| == if appPath != "" then 3 else 2
      ensures r[0] == RootConfigPath && r[1] == AppsConfigPath
      ensures appPath != "" ==> r[2] == Utils.JoinPath(appPath, ConfigFileName)
    {
      [RootConfigPath, AppsConfigPath] + (if appPath != "" then [Utils.JoinPath(appPath, ConfigFileName)] else [])
    }

    /** `getMergedConfig`'s `customTags`; fails when a loaded configuration is `null`. */
    method GetMergedConfig() returns (r: Result<seq<(string, Json)>>)
      ensures r.Err? <==> JNull in Values(configs)
      ensures r.Ok? ==> r.value == MergedTags(Values(configs))
    {
      var merged: seq<(string, Json)> := [];
      var i := 0;
      while i < |configs|
        invariant 0 <= i <= |configs|
        invariant JNull !in Values(configs[..i])
        invariant merged == MergedTags(Values(configs[..i]))
      {
        var config := configs[i].1;
        assert Values(configs[..i + 1]) == Values(configs[..i]) + [config];
        if config == JNull {
          assert Values(configs)[i] == JNull;
          return Err(NullConfigError);
        }
        var tags := Field(config, "customTags");
        if tags.Some? && Truthy(tags.value) {
          merged := Assign(merged, MM.OverrideEntries(tags.value));
        }
        assert Values(configs[..i + 1])[..i] == Values(configs[..i]);
        i := i + 1;
      }
      assert configs[..i] == configs;
      return Ok(merged);
    }

    /**
     * `load`: reads the configuration files in priority order, skipping missing and unparsable
     * ones, then merges.
     */
    method Load(files: string -> MM.Stored<Json>) returns (r: Result<seq<(string, Json)>>)
      modifies this
      ensures configs == Assign(old(configs), Loaded(GetConfigPaths(), files))
      ensures r.Err? <==> JNull in Values(configs)
      ensures r.Ok? ==> r.value == MergedTags(Values(configs))
    {
      ReadConfigs(GetConfigPaths(), files);
      r := GetMergedConfig();
    }

    /** The loop of `load`: each parsed file is set under its path, in the order given. */
    method ReadConfigs(paths: seq<string>, files: string -> MM.Stored<Json>)
      modifies this
      ensures configs == Assign(old(configs), Loaded(paths, files))
    {
      var i := 0;
      while i < |paths|
        invariant 0 <= i <= |paths|
        invariant configs == Assign(old(configs), Loaded(paths[..i], files))
      {
        assert paths[..i + 1] == paths[..i] + [paths[i]];
        LoadedSnoc(paths[..i], paths[i], files);
        var file := files(paths[i]);
        if file.Parsed? {
          AssignSnoc(old(configs), Loaded(paths[..i], files), (paths[i], file.value));
          configs := SetKey(configs, paths[i], file.value);
        } else {
          assert Loaded(paths[..i + 1], files) == Loaded(paths[..i], files) + [];
          assert Loaded(paths[..i], files) + [] == Loaded(paths[..i], files);
        }
        i := i + 1;
      }
      assert paths[..i] == paths;
    }

    /** `getAllTags`: one `{ name, value }` per merged tag whose value is not `null`. */
    method GetAllTags() returns (r: Result<seq<Arweave.Tag>>)
      ensures r.Err? <==> JNull in Values(configs)
      ensures r.Ok? ==> r.value == TagsOf(MergedTags(Values(configs)))
    {
      var merged := GetMergedConfig();
      if merged.Err? {
        return Err(merged.error);
      }
      var entries := merged.value;
      var tags: seq<Arweave.Tag> := [];
      var i := 0;
      while i < |entries|
        invariant 0 <= i <= |entries|
        invariant tags == TagsOf(entries[..i])
      {
        assert entries[..i + 1][..i] == entries[..i];
        if entries[i].1 != JNull {
          tags := tags + [Arweave.Tag(entries[i].0, entries[i].1)];
        }
        i := i + 1;
      }
      assert entries[..i] == entries;
      return Ok(tags);
    }
  }

  /** The pairs `load` sets: each path whose file parses, with its value, in path order. */
  function Loaded(paths: seq<string>, files: string -> MM.Stored<Json>): seq<(string, Json)>
    decreases |paths|
  {
    if |paths| == 0 then []
    else
      var p := paths[|paths| - 1];
      Loaded(paths[..|paths| - 1], files) + (if files(p).Parsed? then [(p, files(p).value)] else [])
  }

  lemma LoadedSnoc(paths: seq<string>, p: string, files: string -> MM.Stored<Json>)
    ensures Loaded(paths + [p], files) == Loaded(paths, files) + (if files(p).Parsed? then [(p, files(p).value)] else [])
  {
    assert (paths + [p])[..|paths|] == paths;
  }

  /** Missing and unparsable files are skipped: only parsed files are loaded. */
  lemma {:induction false} LoadedKeys(paths: seq<string>, files: string -> MM.Stored<Json>)
    ensures Keys(Loaded(paths, files)) == set p | p in paths && files(p).Parsed?
    decreases |paths|
  {
    if |paths| > 0 {
      var init := paths[..|paths| - 1];
      LoadedKeys(init, files);
      var p := paths[|paths| - 1];
      assert paths == init + [p];
      KeysAppend(Loaded(init, files), if files(p).Parsed? then [(p, files(p).value)] else []);
    }
  }
}
