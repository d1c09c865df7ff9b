/**
 * `scripts/player.js`: the album player. The track list is derived from the album's manifest
 * paths (media under `Tracks/` and `Reels/`), numbered and titled from the file names, sorted
 * by number and matched against `album.json`; the player then steps through it with an index
 * that never leaves the list.
 *
 * The manifest's `paths` object and the parsed `album.json` are inputs; the page, the media
 * element and the network are not modelled. A track keeps its transaction id; its URL is the
 * gateway, a slash and that id.
 */
module Player {
  import opened Wrappers
  import opened Json
  import opened Text
  import Sorting
  import Seqs

  // ---------- Numbers and titles from file names ----------

  /** Only paths under `Tracks/` and `Reels/` are media. */
  predicate IsMediaPath(path: string) {
    StartsWith(path, "Tracks/") || StartsWith(path, "Reels/")
  }

  /** A character of the class `[\s-_.]`. */
  predicate IsSeparator(c: char) {
    IsSpace(c) || c == '-' || c == '_' || c == '.'
  }

  /** The numeral `/^(\d+)[\s-_.]/` captures: the leading digits when a separator follows them, else nothing. */
  function NumberedPrefix(name: string): (d: string)
    ensures StartsWith(name, d) && AllDigits(d)
  {
    var d := LeadingDigits(name);
    if |d| > 0 && |d| < |name| && IsSeparator(name[|d|]) then d else ""
  }

  /** A video's number: the numbered prefix, or 1. */
  function VideoNumber(name: string): nat {
    var d := NumberedPrefix(name);
    if |d| > 0 then DigitsValue(d) else 1
  }

  /** An audio file's number: `parseInt` of the leading digits, or 0. */
  function AudioNumber(name: string): nat {
    DigitsValue(LeadingDigits(name))
  }

  /** The number of leading separators. */
  function SeparatorRun(s: string): (n: nat)
    ensures n <= |s|
    ensures forall i :: 0 <= i < n ==> IsSeparator(s[i])
    ensures n < |s| ==> !IsSeparator(s[n])
    decreases |s|
  {
    if |s| > 0 && IsSeparator(s[0]) then 1 + SeparatorRun(s[1..]) else 0
  }

  /** `replace(/^\d+[\s-_.]+/, '')`: a numbered prefix and every separator after it go. */
  function StripNumber(name: string): string {
    var d := NumberedPrefix(name);
    if |d| > 0 then
      var rest := name[|d|..];
      rest[SeparatorRun(rest)..]
    else name
  }

  /** `replace(/\.[^/.]+$/, '')`: a final extension goes, when it is non-empty and holds no slash. */
  function StripExtension(s: string): (r: string)
    ensures StartsWith(s, r)
  {
    var k := LastIndexOf(s, '.');
    if 0 <= k < |s| - 1 && '/' !in s[k + 1..] then s[..k] else s
  }

  /** A track's derived title. */
  function TitleOf(name: string): string {
    StripExtension(StripNumber(name))
  }

  /** A video numbered `n` followed by a separator gets number `n`. */
  lemma VideoNumberOfNumbered(n: nat, c: char, rest: string)
    requires IsSeparator(c)
    ensures VideoNumber(NatToString(n) + [c] + rest) == n
  {
    NatToStringRoundTrip(n);
    LeadingDigitsOfNumeral(NatToString(n), [c] + rest);
    assert NatToString(n) + [c] + rest == NatToString(n) + ([c] + rest);
  }

  /** A name without a leading numeral gets the defaults: 1 for a video, 0 for audio. */
  lemma UnnumberedDefaults(name: string)
    requires |name| == 0 || !IsDigit(name[0])
    ensures VideoNumber(name) == 1 && AudioNumber(name) == 0
    ensures TitleOf(name) == StripExtension(name)
  {
  }

  /** Digits glued to the name are an audio number but not a video number. */
  lemma GluedDigits()
    ensures AudioNumber("12Song.mp3") == 12 && VideoNumber("12Song.mp4") == 1
  {
    LeadingDigitsOfNumeral("12", "Song.mp3");
    LeadingDigitsOfNumeral("12", "Song.mp4");
    assert "12" + "Song.mp3" == "12Song.mp3";
    assert "12" + "Song.mp4" == "12Song.mp4";
    assert "12"[..1] == "1" && "1"[..0] == "";
    assert DigitsValue("12") == 12;
    assert !IsSeparator("12Song.mp4"[2]);
  }

  /** A numbered name loses its numeral and the separators after it. */
  lemma StripNumberOfNumbered(n: nat, rest: string)
    requires |rest| > 0 && IsSeparator(rest[0])
    ensures StripNumber(NatToString(n) + rest) == rest[SeparatorRun(rest)..]
  {
    var d := NatToString(n);
    NatToStringRoundTrip(n);
    LeadingDigitsOfNumeral(d, rest);
    assert (d + rest)[|d|..] == rest;
  }

  /** `" - "` before a name that does not start with a separator is a run of three. */
  lemma SpacedDashRun(t: string)
    requires |t| > 0 && !IsSeparator(t[0])
    ensures SeparatorRun(" - " + t) == 3
  {
    var s := " - " + t;
    assert s[1..][1..][1..] == t;
    assert SeparatorRun(s[1..][1..][1..]) == 0;
  }

  /** The extension of `name.ext` is the part after its only dot. */
  lemma StripExtensionOf(name: string, ext: string)
    requires '.' !in name && |ext| > 0 && '.' !in ext && '/' !in ext
    ensures StripExtension(name + "." + ext) == name
  {
    var t := name + "." + ext;
    LastIndexOfIsLast(t, '.');
    assert t[|name|] == '.';
    assert forall j :: |name| < j < |t| ==> t[j] == ext[j - |name| - 1];
    assert forall j :: 0 <= j < |name| ==> t[j] == name[j];
    assert LastIndexOf(t, '.') == |name|;
    assert t[|name| + 1..] == ext;
    assert t[..|name|] == name;
  }

  /** `NN - Name.ext` is titled `Name`. */
  lemma TitleOfNumbered(n: nat, name: string, ext: string)
    requires |name| > 0 && !IsSeparator(name[0]) && '.' !in name
    requires |ext| > 0 && '.' !in ext && '/' !in ext
    ensures TitleOf(NatToString(n) + " - " + name + "." + ext) == name
  {
    var t := name + "." + ext;
    var rest := " - " + t;
    assert NatToString(n) + " - " + name + "." + ext == NatToString(n) + rest;
    StripNumberOfNumbered(n, rest);
    SpacedDashRun(t);
    assert rest[3..] == t;
    StripExtensionOf(name, ext);
  }

  // ---------- Tracks from the manifest ----------

  /** A track as derived from its manifest path. */
  datatype ManifestTrack = ManifestTrack(title: string, id: Option<Json>, number: nat, isVideo: bool)

  /** The error reading `.id` of a `null` path entry throws. */
  const NullEntryError := "Cannot read properties of null (reading 'id')"

  /** The track for one manifest path and its entry. */
  function TrackOf(entry: (string, Json)): (r: Result<ManifestTrack>)
    ensures r.Err? <==> entry.1 == JNull
    ensures r.Ok? ==> (r.value.isVideo <==> StartsWith(entry.0, "Reels/"))
  {
    if entry.1 == JNull then Err(NullEntryError)
    else
      var name := LastPart(entry.0, '/');
      var isVideo := StartsWith(entry.0, "Reels/");
      var number := if isVideo then VideoNumber(name) else AudioNumber(name);
      Ok(ManifestTrack(TitleOf(name), Field(entry.1, "id"), number, isVideo))
  }

  /** `entries.map(...)`: the tracks in order, or the first error. */
  function TracksOf(entries: seq<(string, Json)>): (r: Result<seq<ManifestTrack>>)
    ensures r.Ok? ==> |r.value| == |entries|
    decreases |entries|
  {
    if |entries| == 0 then Ok([])
    else
      match TracksOf(entries[..|entries| - 1])
      case Err(e) => Err(e)
      case Ok(init) =>
        match TrackOf(entries[|entries| - 1])
        case Err(e) => Err(e)
        case Ok(t) => Ok(init + [t])
  }

  /** Every derived track is the track of its entry. */
  lemma {:induction false} TracksOfEach(entries: seq<(string, Json)>, i: nat)
    requires TracksOf(entries).Ok? && i < |entries|
    ensures TrackOf(entries[i]) == Ok(TracksOf(entries).value[i])
    decreases |entries|
  {
    if i < |entries| - 1 {
      TracksOfEach(entries[..|entries| - 1], i);
    }
  }

  /** The media entries of the manifest's `paths`, in order. */
  function MediaEntries(paths: seq<(string, Json)>): seq<(string, Json)> {
    Seqs.Filter(paths, (e: (string, Json)) => IsMediaPath(e.0))
  }

  /** `(a, b) => a.number - b.number` as an order. */
  predicate ByNumber(a: ManifestTrack, b: ManifestTrack) {
    a.number <= b.number
  }

  /** The tracks from the manifest, sorted by number (stably). */
  function ManifestTracks(paths: seq<(string, Json)>): Result<seq<ManifestTrack>> {
    match TracksOf(MediaEntries(paths))
    case Err(e) => Err(e)
    case Ok(ts) => Ok(Sorting.SortBy(ts, ByNumber))
  }

  /** The manifest tracks are sorted by number, one per media entry, and each comes from a media path. */
  lemma ManifestTracksFromMedia(paths: seq<(string, Json)>)
    requires ManifestTracks(paths).Ok?
    ensures Sorting.SortedBy(ManifestTracks(paths).value, ByNumber)
    ensures |ManifestTracks(paths).value| == |MediaEntries(paths)|
    ensures forall t :: t in ManifestTracks(paths).value ==>
      exists e :: e in paths && IsMediaPath(e.0) && TrackOf(e) == Ok(t)
  {
    var entries := MediaEntries(paths);
    var ts := TracksOf(entries).value;
    assert Sorting.TotalPreorder(ByNumber);
    Sorting.SortBySorted(ts, ByNumber);
    var sorted := Sorting.SortBy(ts, ByNumber);
    assert |sorted| == |multiset(sorted)| == |multiset(ts)| == |ts|;
    forall t | t in sorted
      ensures exists e :: e in paths && IsMediaPath(e.0) && TrackOf(e) == Ok(t)
    {
      assert t in multiset(ts);
      var i :| 0 <= i < |ts| && ts[i] == t;
      TracksOfEach(entries, i);
      Seqs.FilterMembership(paths, (e: (string, Json)) => IsMediaPath(e.0), entries[i]);
    }
  }

  // ---------- Matching album.json ----------

  /** The error `.find` on a list key that holds something other than an array throws. */
  const NotAListError := "find is not a function"
  /** The error reading a field of a `null` album or list item throws. */
  const NullAlbumError := "Cannot read properties of null"

  /** `albumData.<key>?.`: an array's items; nothing when the key is missing or `null`. */
  function AlbumList(albumData: Json, key: string): (r: Result<seq<Json>>)
    ensures albumData.JObj? && Field(albumData, key).Some? && Field(albumData, key).value.JArr? ==>
      r == Ok(Field(albumData, key).value.items)
    ensures Field(albumData, key).None? && albumData != JNull ==> r == Ok([])
  {
    if albumData == JNull then Err(NullAlbumError)
    else
      match Field(albumData, key)
      case None => Ok([])
      case Some(v) =>
        match v
        case JNull => Ok([])
        case JArr(items) => Ok(items)
        case _ => Err(NotAListError)
  }

  /** `.find(t => t.number === n)`: the first item numbered `n`; a `null` item before it throws. */
  function FindByNumber(items: seq<Json>, n: nat): (r: Result<Option<Json>>)
    ensures r.Ok? && r.value.Some? ==> r.value.value in items && Field(r.value.value, "number") == Some(JNum(n))
    ensures r.Ok? && r.value.Some? ==> exists i :: (0 <= i < |items| && items[i] == r.value.value
      && forall j :: 0 <= j < i ==> items[j] != JNull && Field(items[j], "number") != Some(JNum(n)))
    decreases |items|
  {
    if |items| == 0 then Ok(None)
    else if items[0] == JNull then Err(NullAlbumError)
    else if Field(items[0], "number") == Some(JNum(n)) then Ok(Some(items[0]))
    else FindByNumber(items[1..], n)
  }

  /** With no `null` item, the search finds an item numbered `n` exactly when there is one. */
  lemma {:induction false} FindByNumberFinds(items: seq<Json>, n: nat)
    requires forall i :: 0 <= i < |items| ==> items[i] != JNull
    ensures FindByNumber(items, n).Ok?
    ensures FindByNumber(items, n).value.Some? <==>
      exists i :: 0 <= i < |items| && Field(items[i], "number") == Some(JNum(n))
    decreases |items|
  {
    if |items| > 0 {
      FindByNumberFinds(items[1..], n);
      if Field(items[0], "number") != Some(JNum(n)) {
        if exists i :: 0 <= i < |items| && Field(items[i], "number") == Some(JNum(n)) {
          var i :| 0 <= i < |items| && Field(items[i], "number") == Some(JNum(n));
          assert items[1..][i - 1] == items[i];
        }
      }
    }
  }

  /** A track in the player's list. */
  datatype Track = Track(title: Json, id: Option<Json>, number: nat, isVideo: bool, duration: Option<Json>)

  /** The list `album.json` matches a track against. */
  function ListKey(isVideo: bool): string {
    if isVideo then "reels" else "tracks"
  }

  /**
   * A manifest track merged with its `album.json` entry: the entry's truthy title wins, its
   * duration is taken; the number is the manifest's (the entry's equals it).
   */
  function Merged(t: ManifestTrack, albumTrack: Option<Json>): (r: Track)
    ensures r.number == t.number && r.isVideo == t.isVideo && r.id == t.id
    ensures albumTrack.Some? && FieldSet(albumTrack.value, "title") ==> r.title == Field(albumTrack.value, "title").value
    ensures !(albumTrack.Some? && FieldSet(albumTrack.value, "title")) ==> r.title == JStr(t.title)
    ensures albumTrack.None? ==> r.duration.None?
  {
    match albumTrack
    case None => Track(JStr(t.title), t.id, t.number, t.isVideo, None)
    case Some(a) =>
      Track(if FieldSet(a, "title") then Field(a, "title").value else JStr(t.title),
            t.id, t.number, t.isVideo, Field(a, "duration"))
  }

  /** One track matched against its list in `album.json`. */
  function MatchTrack(t: ManifestTrack, albumData: Json): (r: Result<Track>)
    ensures r.Ok? ==> r.value.number == t.number && r.value.isVideo == t.isVideo
    ensures AlbumList(albumData, ListKey(t.isVideo)).Err? ==> r.Err?
  {
    match AlbumList(albumData, ListKey(t.isVideo))
    case Err(e) => Err(e)
    case Ok(items) =>
      match FindByNumber(items, t.number)
      case Err(e) => Err(e)
      case Ok(found) => Ok(Merged(t, found))
  }

  /** An album entry with the track's number and a truthy title names the track. */
  lemma AlbumTitleWins(t: ManifestTrack, albumData: Json, item: Json)
    requires AlbumList(albumData, ListKey(t.isVideo)).Ok?
    requires FindByNumber(AlbumList(albumData, ListKey(t.isVideo)).value, t.number) == Ok(Some(item))
    requires FieldSet(item, "title")
    ensures MatchTrack(t, albumData) == Ok(Merged(t, Some(item)))
    ensures MatchTrack(t, albumData).value.title == Field(item, "title").value
  {
  }

  /** `manifestTracks.map(...)` against `album.json`. */
  function MatchTracks(ts: seq<ManifestTrack>, albumData: Json): (r: Result<seq<Track>>)
    ensures r.Ok? ==> |r.value| == |ts|
    decreases |ts|
  {
    if |ts| == 0 then Ok([])
    else
      match MatchTracks(ts[..|ts| - 1], albumData)
      case Err(e) => Err(e)
      case Ok(init) =>
        match MatchTrack(ts[|ts| - 1], albumData)
        case Err(e) => Err(e)
        case Ok(t) => Ok(init + [t])
  }

  /** Matching keeps each track's place, number and kind. */
  lemma {:induction false} MatchTracksKeeps(ts: seq<ManifestTrack>, albumData: Json, i: nat)
    requires MatchTracks(ts, albumData).Ok? && i < |ts|
    ensures MatchTracks(ts, albumData).value[i].number == ts[i].number
    ensures MatchTracks(ts, albumData).value[i].isVideo == ts[i].isVideo
    decreases |ts|
  {
    if i < |ts| - 1 {
      MatchTracksKeeps(ts[..|ts| - 1], albumData, i);
    }
  }

  /** What `albumData.info.endsWith` throws when `info` is truthy but no string. */
  const InfoNotTextError := "albumData.info.endsWith is not a function"

  /** `albumData.info` is truthy but not a string, so testing its ending throws. */
  predicate InfoNotText(albumData: Json) {
    FieldSet(albumData, "info") && !Field(albumData, "info").value.JStr?
  }

  /**
   * The player's track list: `album.json` must not be `null` (its band is read first), and a
   * truthy `info` must be a string (its ending is tested); then the manifest tracks are matched.
   * Any failure leaves the old list in place, as the `catch` of `loadAlbum` does.
   */
  function LoadTracks(paths: seq<(string, Json)>, albumData: Json): (r: Result<seq<Track>>)
    ensures albumData == JNull ==> r.Err?
    ensures albumData != JNull && InfoNotText(albumData) ==> r == Err(InfoNotTextError)
    ensures r.Ok? <==> (albumData != JNull && !InfoNotText(albumData) && ManifestTracks(paths).Ok?
      && MatchTracks(ManifestTracks(paths).value, albumData).Ok?)
    ensures r.Ok? ==> r.value == MatchTracks(ManifestTracks(paths).value, albumData).value
    ensures r.Ok? ==> |r.value| == |ManifestTracks(paths).value|
  {
    if albumData == JNull then Err(NullAlbumError)
    else if InfoNotText(albumData) then Err(InfoNotTextError)
    else
      match ManifestTracks(paths)
      case Err(e) => Err(e)
      case Ok(ts) => MatchTracks(ts, albumData)
  }

  /** An `info` that names a text file, or any other string, does not stop the tracks from loading. */
  lemma TextInfoLoads(paths: seq<(string, Json)>, albumData: Json, info: string)
    requires ManifestTracks(paths).Ok? && MatchTracks(ManifestTracks(paths).value, albumData).Ok?
    requires Field(albumData, "info") == Some(JStr(info))
    ensures LoadTracks(paths, albumData).Ok?
  {
  }

  /** A numeric `info` makes `loadAlbum` throw before any track is loaded. */
  lemma NumericInfoFails(paths: seq<(string, Json)>, n: int)
    requires n != 0
    ensures LoadTracks(paths, JObj([("info", JNum(n))])) == Err(InfoNotTextError)
  {
    NumericInfoNotText(n);
  }

  lemma NumericInfoNotText(n: int)
    requires n != 0
    ensures InfoNotText(JObj([("info", JNum(n))]))
  {
    assert Field(JObj([("info", JNum(n))]), "info") == Some(JNum(n));
  }

  /** The player's list is in ascending order of number, one track per media path. */
  lemma LoadedTracksAscending(paths: seq<(string, Json)>, albumData: Json)
    requires LoadTracks(paths, albumData).Ok?
    ensures var tracks := LoadTracks(paths, albumData).value;
      |tracks| == |MediaEntries(paths)|
      && forall i, j :: 0 <= i < j < |tracks| ==> tracks[i].number <= tracks[j].number
  {
    var ts := ManifestTracks(paths).value;
    var tracks := LoadTracks(paths, albumData).value;
    ManifestTracksFromMedia(paths);
    forall i, j | 0 <= i < j < |tracks|
      ensures tracks[i].number <= tracks[j].number
    {
      MatchTracksKeeps(ts, albumData, i);
      MatchTracksKeeps(ts, albumData, j);
      assert ByNumber(ts[i], ts[j]);
    }
  }

  // ---------- Navigation ----------

  /** The index stays within the list; with no tracks it stays at 0. */
  predicate InRange(index: int, count: int) {
    0 <= index && (index < count || index == 0)
  }

  /** Next, `ended` and ArrowRight: forward only when a later track exists. */
  function NextIndex(index: int, count: int): (r: int)
    ensures InRange(index, count) ==> InRange(r, count)
    ensures r == index || r == index + 1
    ensures r == index + 1 <==> index < count - 1
  {
    if index < count - 1 then index + 1 else index
  }

  /** Previous and ArrowLeft: back only when an earlier track exists. */
  function PrevIndex(index: int): (r: int)
    ensures InRange(index, 0) || index > 0 ==> r >= 0
    ensures forall count :: InRange(index, count) ==> InRange(r, count)
    ensures r == index - 1 <==> index > 0
    ensures r == index || r == index - 1
  {
    if index > 0 then index - 1 else index
  }

  /** `k` presses of Next from track `i`. */
  function NextTimes(index: int, count: int, k: nat): int
    decreases k
  {
    if k == 0 then index else NextTimes(NextIndex(index, count), count, k - 1)
  }

  /** Pressing Next `k` times from track `i` reaches track `i + k`, or stops at the last track. */
  lemma {:induction false} NextTimesStopsAtLast(index: nat, count: nat, k: nat)
    requires index < count
    ensures NextTimes(index, count, k) == if index + k < count then index + k else count - 1
    decreases k
  {
    if k > 0 {
      NextTimesStopsAtLast(NextIndex(index, count), count, k - 1);
    }
  }

  /** Previous undoes Next whenever Next moved. */
  lemma PrevUndoesNext(index: int, count: int)
    requires 0 <= index < count - 1
    ensures PrevIndex(NextIndex(index, count)) == index
  {
  }

  /** The player's state: the tracks, the current index, the playback position and whether it plays. */
  class Player {
    var tracks: seq<Track>
    var index: int
    var currentTime: real
    var playing: bool

    predicate Valid()
      reads this
    {
      InRange(index, |tracks|)
    }

    /** `setupPlayer`: loads the first track, paused. */
    constructor(tracks: seq<Track>)
      ensures this.tracks == tracks && index == 0 && currentTime == 0.0 && !playing
      ensures Valid()
    {
      this.tracks := tracks;
      index := 0;
      currentTime := 0.0;
      playing := false;
    }

    /** `loadTrack(i)`: makes `i` current and starts it from the beginning. */
    method LoadTrack(i: int)
      modifies this`index, this`currentTime
      ensures index == i && currentTime == 0.0
    {
      index := i;
      currentTime := 0.0;
    }

    /** `playCurrentTrack` */
    method PlayCurrentTrack()
      modifies this`playing
      ensures playing
    {
      playing := true;
    }

    /** The next button, the end of a track, and ArrowRight. */
    method Next()
      modifies this`index, this`currentTime, this`playing
      ensures index == NextIndex(old(index), |tracks|)
      ensures index != old(index) ==> currentTime == 0.0 && playing
      ensures index == old(index) ==> currentTime == old(currentTime) && playing == old(playing)
      ensures old(Valid()) ==> Valid()
    {
      if index < |tracks| - 1 {
        LoadTrack(index + 1);
        PlayCurrentTrack();
      }
    }

    /** The previous button: past two seconds it rewinds the current track; otherwise it goes back when it can. */
    method Prev()
      modifies this`index, this`currentTime, this`playing
      ensures old(currentTime) > 2.0 ==> index == old(index) && currentTime == 0.0 && playing == old(playing)
      ensures old(currentTime) <= 2.0 ==> index == PrevIndex(old(index))
      ensures old(currentTime) <= 2.0 && index != old(index) ==> currentTime == 0.0 && playing
      ensures old(currentTime) <= 2.0 && index == old(index) ==> currentTime == old(currentTime) && playing == old(playing)
      ensures old(Valid()) ==> Valid()
    {
      if currentTime > 2.0 {
        currentTime := 0.0;
      } else if index > 0 {
        LoadTrack(index - 1);
        PlayCurrentTrack();
      }
    }

    /** ArrowLeft: back when it can, whatever the playback position. */
    method ArrowLeft()
      modifies this`index, this`currentTime, this`playing
      ensures index == PrevIndex(old(index))
      ensures index != old(index) ==> currentTime == 0.0 && playing
      ensures index == old(index) ==> currentTime == old(currentTime) && playing == old(playing)
      ensures old(Valid()) ==> Valid()
    {
      if index > 0 {
        LoadTrack(index - 1);
        PlayCurrentTrack();
      }
    }

    /** A click on a row of the track list. */
    method Select(i: int)
      requires 0 <= i < |tracks|
      modifies this`index, this`currentTime, this`playing
      ensures index == i && currentTime == 0.0 && playing
      ensures Valid()
    {
      LoadTrack(i);
      PlayCurrentTrack();
    }

    /** The play button and Space: play when paused, pause when playing. */
    method TogglePlay()
      modifies this`playing
      ensures playing == !old(playing)
    {
      playing := !playing;
    }
  }
}
