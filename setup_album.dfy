/**
 * `tools/album-setup-tool/setup_album.py`: prepares an album directory. It picks the media
 * directory (`Reels/` for videos, else `Tracks/`), builds `album.json` with one numbered entry per
 * media file, and checks that an existing `album.json` lists as many entries as there are files.
 *
 * The listings of `Reels/` and `Tracks/` (`None` when the directory does not exist), the state of
 * `album.json` and the lines typed at the prompts are inputs. Writing `album.json` and renaming
 * files are not modelled: the model ends with the value that would be written.
 */
module SetupAlbum {
  import opened Wrappers
  import opened Json
  import opened Text
  import opened Assoc
  import MM = ManifestManager
  import RT = RenameTracks

  // ---------- File names ----------

  /** The characters a cleaned name may not end with: `rstrip(' .')`. */
  const TrailingChars: set<char> := {' ', '.'}

  /** A track name as `clean_filename` keeps it: forbidden characters removed, then trailing spaces and dots. */
  function CleanName(filename: string): (r: string)
    ensures forall i :: 0 <= i < |r| ==> r[i] !in RT.ForbiddenChars
    ensures |r| > 0 ==> r[|r| - 1] !in TrailingChars
  {
    var removed := RemoveChars(filename, RT.ForbiddenChars);
    var r := RStripChars(removed, TrailingChars);
    assert forall i :: 0 <= i < |r| ==> r[i] == removed[i];
    r
  }

  /** A name holding no forbidden character and not ending in a space or a dot is its own cleaning. */
  lemma CleanNameOfClean(filename: string)
    requires forall i :: 0 <= i < |filename| ==> filename[i] !in RT.ForbiddenChars
    requires |filename| > 0 ==> filename[|filename| - 1] !in TrailingChars
    ensures CleanName(filename) == filename
  {
    RemoveCharsAbsent(filename, RT.ForbiddenChars);
  }

  /** Cleaning twice is cleaning once. */
  lemma CleanNameIdempotent(filename: string)
    ensures CleanName(CleanName(filename)) == CleanName(filename)
  {
    CleanNameOfClean(CleanName(filename));
  }

  /** `clean_filename(filename, index)` */
  function CleanFilename(filename: string, index: nat): string {
    RT.ZeroPad2(index) + " - " + CleanName(filename)
  }

  /** A character of the class `[- _\.]` that may follow a track number. */
  predicate IsNumberSeparator(c: char) {
    c == '-' || c == ' ' || c == '_' || c == '.'
  }

  /** The number of leading number separators. */
  function NumberSeparatorRun(s: string): (n: nat)
    ensures n <= |s|
    ensures n < |s| ==> !IsNumberSeparator(s[n])
    decreases |s|
  {
    if |s| > 0 && IsNumberSeparator(s[0]) then 1 + NumberSeparatorRun(s[1..]) else 0
  }

  /** `re.sub(r'^\d+[- _\.]+', '', stem)`: a leading number and the separators after it go, when at least one separator follows. */
  function StripTrackNumber(stem: string): string {
    var d := LeadingDigits(stem);
    var rest := stem[|d|..];
    var k := NumberSeparatorRun(rest);
    if |d| > 0 && k > 0 then rest[k..] else stem
  }

  /** A stem without a leading number, or whose number is not followed by a separator, is kept. */
  lemma UnnumberedStemKept(stem: string)
    requires |stem| == 0 || !IsDigit(stem[0]) || (|LeadingDigits(stem)| < |stem| && !IsNumberSeparator(stem[|LeadingDigits(stem)|]))
    ensures StripTrackNumber(stem) == stem
  {
  }

  /** The title `rename_from_files` offers for a file: the typed answer stripped, or else the file's stem without its number. */
  function EntryTitle(filename: string, answer: string): string {
    var typed := Trim(answer);
    if typed != "" then typed else StripTrackNumber(RT.Stem(filename))
  }

  /** `" - "` before a name that does not start with a separator is a run of three. */
  lemma SpacedDashRun(t: string)
    requires |t| > 0 && !IsNumberSeparator(t[0])
    ensures NumberSeparatorRun(" - " + t) == 3
  {
    var s := " - " + t;
    assert s[1..][1..][1..] == t;
    assert NumberSeparatorRun(t) == 0;
    assert s[1..][1..][0] == ' ' && NumberSeparatorRun(s[1..][1..]) == 1;
    assert s[1..][0] == '-' && NumberSeparatorRun(s[1..]) == 2;
    assert s[0] == ' ';
  }

  /** Pressing Enter on a file named by `clean_filename` offers its cleaned name back as the title. */
  lemma OfferedTitleOfCleanedFile(name: string, index: nat, ext: string)
    requires |CleanName(name)| > 0 && !IsNumberSeparator(CleanName(name)[0])
    requires |ext| > 0 && forall i :: 0 <= i < |ext| ==> ext[i] != '.'
    ensures EntryTitle(CleanFilename(name, index) + "." + ext, "") == CleanName(name)
  {
    var pad := RT.ZeroPad2(index);
    var c := CleanName(name);
    var stem := CleanFilename(name, index);
    RT.StemAndSuffixOf(stem, ext);
    assert Trim("") == "";
    assert stem == pad + (" - " + c);
    LeadingDigitsOfNumeral(pad, " - " + c);
    SpacedDashRun(c);
    assert stem[|pad|..] == " - " + c;
    assert (" - " + c)[3..] == c;
  }

  // ---------- Media directory ----------

  datatype MediaDir = Tracks | Reels

  /** The key of the media list in `album.json`. */
  function ListKey(dir: MediaDir): string {
    if dir == Reels then "reels" else "tracks"
  }

  /** The album's `type`. */
  function MediaType(dir: MediaDir): string {
    if dir == Reels then "video" else "audio"
  }

  /** `f.lower().endswith(('.mp4', '.webm'))` */
  predicate IsVideoName(f: string) {
    EndsWith(ToLower(f), ".mp4") || EndsWith(ToLower(f), ".webm")
  }

  /** What `get_media_files` found: the sorted media files, the directory, and whether it had to create it. */
  datatype MediaScan = MediaScan(files: seq<string>, dir: MediaDir, created: bool)

  /** `get_media_files(directory)`, given the listings of `Reels/` and `Tracks/`. */
  function GetMediaFiles(reels: Option<seq<string>>, tracks: Option<seq<string>>): (r: MediaScan)
    ensures r.dir == Reels <==> reels.Some? && exists i :: 0 <= i < |reels.value| && IsVideoName(reels.value[i])
    ensures r.created <==> r.dir == Tracks && tracks.None?
    ensures r.dir == Reels ==> r.files == RT.GetMediaFiles(reels.value)
    ensures r.dir == Tracks && tracks.Some? ==> r.files == RT.GetMediaFiles(tracks.value)
    ensures r.created ==> r.files == []
  {
    if reels.Some? && exists i :: 0 <= i < |reels.value| && IsVideoName(reels.value[i]) then
      MediaScan(RT.GetMediaFiles(reels.value), Reels, false)
    else
      match tracks
      case None => MediaScan([], Tracks, true)
      case Some(listing) => MediaScan(RT.GetMediaFiles(listing), Tracks, false)
  }

  /** `Reels/` holding only audio files is passed over for `Tracks/`. */
  lemma AudioOnlyReelsUseTracks(reels: seq<string>, tracks: Option<seq<string>>)
    requires forall i :: 0 <= i < |reels| ==> !IsVideoName(reels[i])
    ensures GetMediaFiles(Some(reels), tracks).dir == Tracks
  {
  }

  // ---------- album.json ----------

  /** Python truthiness of a parsed value: empty containers are false. */
  predicate PyTruthy(v: Json) {
    match v
    case JNull => false
    case JBool(b) => b
    case JNum(n) => n != 0
    case JStr(s) => s != ""
    case JArr(items) => items != []
    case JObj(fields) => fields != []
  }

  /** `load_album_json()`: the parsed file, `None` when it is missing, empty, unparsable or `null`. */
  function LoadAlbumJson(file: MM.Stored<Json>): (r: Option<Json>)
    ensures r.Some? <==> file.Parsed? && file.value != JNull
    ensures r.Some? ==> r.value == file.value
  {
    if file.Parsed? && file.value != JNull then Some(file.value) else None
  }

  /** The error `.get` raises on a value that is not a dictionary. */
  const AttributeError := "object has no attribute 'get'"

  /** `load_album_json() or {}`: a falsy or missing value becomes the empty dictionary. */
  function ExistingData(loaded: Option<Json>): (r: Json)
    ensures loaded.None? ==> r == JObj([])
  {
    if loaded.Some? && PyTruthy(loaded.value) then loaded.value else JObj([])
  }

  /** `existing.get(key, '')` on a dictionary's fields. */
  function GetOrEmpty(existing: seq<(string, Json)>, key: string): Json {
    match Lookup(existing, key)
    case Some(v) => v
    case None => JStr("")
  }

  /** `input(...) or existing.get(key, '')`: a non-empty answer wins. */
  function Answered(answer: string, existing: seq<(string, Json)>, key: string): (r: Json)
    ensures answer != "" ==> r == JStr(answer)
    ensures answer == "" ==> r == GetOrEmpty(existing, key)
  {
    if answer != "" then JStr(answer) else GetOrEmpty(existing, key)
  }

  /** The lines typed for the band, the title, the date and the source. */
  datatype AlbumDetails = AlbumDetails(band: string, title: string, date: string, source: string)

  const Version := "1.1.0"
  const InfoFile := "more_info.txt"

  /** The keys of `album.json` before its media list, in order. */
  function AlbumFields(dir: MediaDir, details: AlbumDetails, existing: seq<(string, Json)>): seq<(string, Json)> {
    [("version", JStr(Version)),
     ("type", JStr(MediaType(dir))),
     ("band", Answered(details.band, existing, "band")),
     ("title", Answered(details.title, existing, "title")),
     ("date", Answered(details.date, existing, "date")),
     ("source", Answered(details.source, existing, "source")),
     ("info", JStr(InfoFile))]
  }

  /** `create_new_album_json()`: the header fields and an empty list under the directory's key only. */
  function NewAlbum(dir: MediaDir, details: AlbumDetails, loaded: Option<Json>): (r: Result<seq<(string, Json)>>)
    ensures r.Err? <==> !ExistingData(loaded).JObj?
  {
    var existing := ExistingData(loaded);
    if !existing.JObj? then Err(AttributeError)
    else Ok(AlbumFields(dir, details, existing.fields) + [(ListKey(dir), JArr([]))])
  }

  /** Appending a key not yet present makes it look up to its value. */
  lemma {:induction false} LookupAppended(kvs: seq<(string, Json)>, k: string, v: Json)
    requires k !in Keys(kvs)
    ensures Lookup(kvs + [(k, v)], k) == Some(v)
    decreases |kvs|
  {
    if |kvs| > 0 {
      LookupAppended(kvs[1..], k, v);
      assert (kvs + [(k, v)])[1..] == kvs[1..] + [(k, v)];
    }
  }

  /** Neither list key is a header key. */
  lemma ListKeysNotHeaders(dir: MediaDir, details: AlbumDetails, existing: seq<(string, Json)>, d: MediaDir)
    ensures ListKey(d) !in Keys(AlbumFields(dir, details, existing))
  {
    var fields := AlbumFields(dir, details, existing);
    KeysIndex(fields, ListKey(d));
    forall i | 0 <= i < |fields| ensures fields[i].0 != ListKey(d) {
      if i == 3 {
        assert fields[i].0[0] == 't' && |fields[i].0| == 5;
      } else if i == 5 {
        assert fields[i].0[0] == 's' && |fields[i].0| == 6;
      }
    }
  }

  /** A new album is typed after its directory and holds the list key of that directory and not the other one. */
  lemma NewAlbumKeys(dir: MediaDir, details: AlbumDetails, loaded: Option<Json>)
    requires NewAlbum(dir, details, loaded).Ok?
    ensures Lookup(NewAlbum(dir, details, loaded).value, "type") == Some(JStr(MediaType(dir)))
    ensures Lookup(NewAlbum(dir, details, loaded).value, ListKey(dir)) == Some(JArr([]))
    ensures ListKey(if dir == Reels then Tracks else Reels) !in Keys(NewAlbum(dir, details, loaded).value)
  {
    var existing := ExistingData(loaded).fields;
    var header := AlbumFields(dir, details, existing);
    var fields := NewAlbum(dir, details, loaded).value;
    assert fields == header + [(ListKey(dir), JArr([]))];
    assert fields[0].0 == "version" && fields[1..][0].0 == "type";
    ListKeysNotHeaders(dir, details, existing, dir);
    LookupAppended(header, ListKey(dir), JArr([]));
    var other := if dir == Reels then Tracks else Reels;
    ListKeysNotHeaders(dir, details, existing, other);
    KeysAppend(header, [(ListKey(dir), JArr([]))]);
  }

  /** Without an album to fall back on, every detail is exactly the line typed, empty when Enter was pressed. */
  lemma AnswersWithoutExisting(dir: MediaDir, details: AlbumDetails)
    ensures NewAlbum(dir, details, None) == Ok(
      [("version", JStr(Version)), ("type", JStr(MediaType(dir))),
       ("band", JStr(details.band)), ("title", JStr(details.title)),
       ("date", JStr(details.date)), ("source", JStr(details.source)),
       ("info", JStr(InfoFile)), (ListKey(dir), JArr([]))])
  {
    var none: seq<(string, Json)> := [];
    assert ExistingData(None) == JObj(none);
    assert Answered(details.band, none, "band") == JStr(details.band);
    assert Answered(details.title, none, "title") == JStr(details.title);
    assert Answered(details.date, none, "date") == JStr(details.date);
    assert Answered(details.source, none, "source") == JStr(details.source);
    var header := AlbumFields(dir, details, none);
    assert header == [("version", JStr(Version)), ("type", JStr(MediaType(dir))),
       ("band", JStr(details.band)), ("title", JStr(details.title)),
       ("date", JStr(details.date)), ("source", JStr(details.source)),
       ("info", JStr(InfoFile))];
    assert NewAlbum(dir, details, None) == Ok(header + [(ListKey(dir), JArr([]))]);
    var full := header + [(ListKey(dir), JArr([]))];
    assert full[..7] == header;
    assert full == [("version", JStr(Version)), ("type", JStr(MediaType(dir))),
       ("band", JStr(details.band)), ("title", JStr(details.title)),
       ("date", JStr(details.date)), ("source", JStr(details.source)),
       ("info", JStr(InfoFile)), (ListKey(dir), JArr([]))];
  }

  /** `for key in [...]: if not album_data[key]: album_data[key] = existing_data.get(key, '')` */
  function Refilled(album: seq<(string, Json)>, existing: seq<(string, Json)>, keys: seq<string>): seq<(string, Json)>
    decreases |keys|
  {
    if |keys| == 0 then album
    else
      var before := Refilled(album, existing, keys[..|keys| - 1]);
      var key := keys[|keys| - 1];
      var current := Lookup(before, key);
      if current.Some? && PyTruthy(current.value) then before
      else SetKey(before, key, GetOrEmpty(existing, key))
  }

  /** A detail that is already set, or that already holds the old album's value, is left alone. */
  predicate Settled(album: seq<(string, Json)>, existing: seq<(string, Json)>, key: string) {
    Lookup(album, key).Some?
    && (PyTruthy(Lookup(album, key).value) || Lookup(album, key).value == GetOrEmpty(existing, key))
  }

  /** Refilling settled details changes nothing. */
  lemma {:induction false} RefilledSettled(album: seq<(string, Json)>, existing: seq<(string, Json)>, keys: seq<string>)
    requires forall i :: 0 <= i < |keys| ==> Settled(album, existing, keys[i])
    ensures Refilled(album, existing, keys) == album
    decreases |keys|
  {
    if |keys| > 0 {
      var key := keys[|keys| - 1];
      assert Settled(album, existing, key);
      RefilledSettled(album, existing, keys[..|keys| - 1]);
      var current := Lookup(album, key);
      if !PyTruthy(current.value) {
        SetKeySame(album, key, GetOrEmpty(existing, key));
      }
    }
  }

  /** The `i`-th pair is what its key looks up to when no earlier pair has that key. */
  lemma {:induction false} LookupAt(kvs: seq<(string, Json)>, i: nat)
    requires i < |kvs| && forall j :: 0 <= j < i ==> kvs[j].0 != kvs[i].0
    ensures Lookup(kvs, kvs[i].0) == Some(kvs[i].1)
    decreases i
  {
    if i > 0 {
      LookupAt(kvs[1..], i - 1);
    }
  }

  /** An answered detail is set, or holds the old album's value. */
  lemma AnsweredSettled(fields: seq<(string, Json)>, i: nat, answer: string, existing: seq<(string, Json)>, key: string)
    requires i < |fields| && fields[i] == (key, Answered(answer, existing, key))
    requires forall j :: 0 <= j < i ==> fields[j].0 != key
    ensures Settled(fields, existing, key)
  {
    LookupAt(fields, i);
  }

  /**
   * Filling empty details from the old album a second time changes nothing: `create_new_album_json`
   * already fell back on the same values.
   */
  lemma RefillChangesNothing(dir: MediaDir, details: AlbumDetails, loaded: Option<Json>)
    requires NewAlbum(dir, details, loaded).Ok? && loaded.Some? && PyTruthy(loaded.value)
    ensures Refilled(NewAlbum(dir, details, loaded).value, loaded.value.fields, UpdateKeys)
         == NewAlbum(dir, details, loaded).value
  {
    var existing := loaded.value.fields;
    var fields := NewAlbum(dir, details, loaded).value;
    assert fields[0].0 == "version" && fields[1].0 == "type";
    assert "band"[0] == 'b' && "date"[0] == 'd' && "type"[0] == 't';
    AnsweredSettled(fields, 2, details.band, existing, "band");
    AnsweredSettled(fields, 3, details.title, existing, "title");
    AnsweredSettled(fields, 4, details.date, existing, "date");
    AnsweredSettled(fields, 5, details.source, existing, "source");
    RefilledSettled(fields, existing, UpdateKeys);
  }

  /** The media list entry for 1-based position `number`. */
  function MediaEntry(number: nat, title: string): Json {
    JObj([("number", JNum(number)), ("title", JStr(title))])
  }

  /** The `media_list` loop of `rename_from_files`: one entry per file, numbered from 1 in sorted order. */
  method MediaList(files: seq<string>, answers: seq<string>) returns (list: seq<Json>)
    requires |answers| == |files|
    ensures |list| == |files|
    ensures forall i :: 0 <= i < |files| ==> list[i] == MediaEntry(i + 1, EntryTitle(files[i], answers[i]))
  {
    var titles := seq(|files|, i requires 0 <= i < |files| => EntryTitle(files[i], answers[i]));
    list := NumberedEntries(titles);
  }

  /** Appends `{"number": i, "title": title}` for each title, numbering from 1. */
  method NumberedEntries(titles: seq<string>) returns (list: seq<Json>)
    ensures |list| == |titles|
    ensures forall i :: 0 <= i < |titles| ==> list[i] == MediaEntry(i + 1, titles[i])
  {
    list := [];
    var i := 0;
    while i < |titles|
      invariant 0 <= i <= |titles|
      invariant |list| == i
      invariant forall j :: 0 <= j < i ==> list[j] == MediaEntry(j + 1, titles[j])
    {
      list := list + [MediaEntry(i + 1, titles[i])];
      i := i + 1;
    }
  }

  /** How `rename_from_files` ends. */
  datatype FilesOutcome =
    | NotUpdated
    | NoMedia(dir: MediaDir)
    | Failed(error: string)
    | Updated(album: seq<(string, Json)>, files: seq<string>, dir: MediaDir, mediaList: seq<Json>)

  const UpdateKeys: seq<string> := ["band", "title", "date", "source"]

  /**
   * `rename_from_files()`: asks before replacing an existing `album.json`, scans the media,
   * builds the new album, fills empty details from the old file, and lists one entry per file.
   */
  method RenameFromFiles(albumFile: MM.Stored<Json>, update: string, reels: Option<seq<string>>, tracks: Option<seq<string>>,
                         details: AlbumDetails, answers: seq<string>) returns (r: FilesOutcome)
    requires |answers| == |GetMediaFiles(reels, tracks).files|
    ensures !albumFile.Absent? && !RT.IsYes(update) ==> r == NotUpdated
    ensures (albumFile.Absent? || RT.IsYes(update)) && GetMediaFiles(reels, tracks).files == [] ==> r == NoMedia(GetMediaFiles(reels, tracks).dir)
    ensures r.Failed? <==> (albumFile.Absent? || RT.IsYes(update)) && GetMediaFiles(reels, tracks).files != []
                           && NewAlbum(GetMediaFiles(reels, tracks).dir, details, LoadAlbumJson(albumFile)).Err?
    ensures r.NotUpdated? <==> !albumFile.Absent? && !RT.IsYes(update)
    ensures r.NoMedia? <==> (albumFile.Absent? || RT.IsYes(update)) && GetMediaFiles(reels, tracks).files == []
    ensures (albumFile.Absent? || RT.IsYes(update)) && GetMediaFiles(reels, tracks).files != []
        && NewAlbum(GetMediaFiles(reels, tracks).dir, details, LoadAlbumJson(albumFile)).Ok?
      ==> r.Updated?
    ensures r.Updated? ==> r.files == GetMediaFiles(reels, tracks).files && |r.files| > 0 && r.dir == GetMediaFiles(reels, tracks).dir
    ensures r.Updated? ==> |r.mediaList| == |r.files|
    ensures r.Updated? ==> forall i :: 0 <= i < |r.files| ==> r.mediaList[i] == MediaEntry(i + 1, EntryTitle(r.files[i], answers[i]))
    ensures r.Updated? ==> r.album == SetKey(NewAlbum(r.dir, details, LoadAlbumJson(albumFile)).value, ListKey(r.dir), JArr(r.mediaList))
    ensures r.Updated? ==> Lookup(r.album, ListKey(r.dir)) == Some(JArr(r.mediaList))
    ensures r.Updated? ==> Lookup(r.album, "type") == Some(JStr(MediaType(r.dir)))
  {
    if !albumFile.Absent? && !RT.IsYes(update) {
      return NotUpdated;
    }
    var scan := GetMediaFiles(reels, tracks);
    if scan.files == [] {
      return NoMedia(scan.dir);
    }
    var loaded := LoadAlbumJson(albumFile);
    var created := NewAlbum(scan.dir, details, loaded);
    if created.Err? {
      return Failed(created.error);
    }
    var album := created.value;
    NewAlbumKeys(scan.dir, details, loaded);
    if loaded.Some? && PyTruthy(loaded.value) {
      RefillChangesNothing(scan.dir, details, loaded);
      album := Refilled(album, loaded.value.fields, UpdateKeys);
    }
    SetKeySame(album, "type", JStr(MediaType(scan.dir)));
    album := SetKey(album, "type", JStr(MediaType(scan.dir)));
    var list := MediaList(scan.files, answers);
    assert ListKey(scan.dir) != "type";
    LookupSetKey(album, ListKey(scan.dir), JArr(list), ListKey(scan.dir));
    LookupSetKey(album, ListKey(scan.dir), JArr(list), "type");
    r := Updated(SetKey(album, ListKey(scan.dir), JArr(list)), scan.files, scan.dir, list);
  }

  // ---------- Checking album.json against the files ----------

  /** `len(value)`: defined for strings, lists and dictionaries. */
  function PyLen(v: Json): Option<nat> {
    match v
    case JStr(s) => Some(|s|)
    case JArr(items) => Some(|items|)
    case JObj(fields) => Some(|fields|)
    case _ => None
  }

  /** How `rename_from_json` ends. */
  datatype JsonCheck =
    | NoAlbum
    | NotAnObject
    | NoEntries
    | NotSized
    | CountMismatch(fileCount: nat, entryCount: nat)
    | Ready(album: Json, files: seq<string>, dir: MediaDir, mediaList: Json)

  /** `album_data.get(key, [])` */
  function MediaListOf(fields: seq<(string, Json)>, dir: MediaDir): Json {
    match Lookup(fields, ListKey(dir))
    case Some(v) => v
    case None => JArr([])
  }

  /** `rename_from_json()`, given the state of `album.json` and what `get_media_files` found. */
  function RenameFromJson(albumFile: MM.Stored<Json>, scan: MediaScan): (r: JsonCheck)
    ensures r.Ready? <==> LoadAlbumJson(albumFile).Some? && LoadAlbumJson(albumFile).value.JObj?
                          && LoadAlbumJson(albumFile).value.fields != []
                          && PyTruthy(MediaListOf(LoadAlbumJson(albumFile).value.fields, scan.dir))
                          && PyLen(MediaListOf(LoadAlbumJson(albumFile).value.fields, scan.dir)) == Some(|scan.files|)
    ensures r.Ready? ==> r.files == scan.files && r.dir == scan.dir
  {
    var loaded := LoadAlbumJson(albumFile);
    if loaded.None? || !PyTruthy(loaded.value) then NoAlbum
    else if !loaded.value.JObj? then NotAnObject
    else
      var list := MediaListOf(loaded.value.fields, scan.dir);
      if !PyTruthy(list) then NoEntries
      else
        match PyLen(list)
        case None => NotSized
        case Some(n) => if n != |scan.files| then CountMismatch(|scan.files|, n) else Ready(loaded.value, scan.files, scan.dir, list)
  }

  /** An album without the directory's list, or with an empty one, is refused. */
  lemma MissingListRefused(fields: seq<(string, Json)>, scan: MediaScan)
    requires fields != [] && (ListKey(scan.dir) !in Keys(fields) || Lookup(fields, ListKey(scan.dir)) == Some(JArr([])))
    ensures RenameFromJson(MM.Parsed(JObj(fields)), scan) == NoEntries
  {
  }

  /** The album `rename_from_files` writes is accepted by `rename_from_json` for the same files. */
  lemma WrittenAlbumAccepted(album: seq<(string, Json)>, scan: MediaScan, mediaList: seq<Json>)
    requires |scan.files| > 0 && |mediaList| == |scan.files|
    requires Lookup(album, ListKey(scan.dir)) == Some(JArr(mediaList))
    ensures RenameFromJson(MM.Parsed(JObj(album)), scan) == Ready(JObj(album), scan.files, scan.dir, JArr(mediaList))
  {
    assert album != [];
  }
}
