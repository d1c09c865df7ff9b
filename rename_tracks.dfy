/**
 * `tools/file-renaming-tool/rename_tracks.py`: renames the media files of the current directory
 * after the track names listed in `tracks.txt`, in sorted order, as `NN - Name.ext`.
 *
 * The contents of `tracks.txt` (or its absence), the directory listing and the two answers typed
 * at the prompts are inputs; the directory itself is a `Folder` mapping each file name to its
 * contents.
 */
module RenameTracks {
  import opened Wrappers
  import opened Text
  import Sorting
  import Seqs
  import Player

  // ---------- File names ----------

  /** The characters `[<>:"/\\|?*]` that file names lose. */
  const ForbiddenChars: set<char> := {'<', '>', ':', '"', '/', '\\', '|', '?', '*'}

  /** `f"{index:02d}"`: the index in decimal, with a leading zero below 10. */
  function ZeroPad2(n: nat): (r: string)
    ensures |r| >= 2 && AllDigits(r) && DigitsValue(r) == n
  {
    NatToStringRoundTrip(n);
    if n < 10 then
      assert ("0" + NatToString(n))[..1] == "0";
      "0" + NatToString(n)
    else
      NatToStringRoundTrip(n / 10);
      NatToString(n)
  }

  /** `clean_filename(filename, index)` */
  function CleanFilename(filename: string, index: nat): string {
    ZeroPad2(index) + " - " + RemoveChars(filename, ForbiddenChars)
  }

  /** A cleaned name holds none of the forbidden characters. */
  lemma CleanFilenameIsClean(filename: string, index: nat)
    ensures forall i :: 0 <= i < |CleanFilename(filename, index)| ==> CleanFilename(filename, index)[i] !in ForbiddenChars
  {
    var pad := ZeroPad2(index);
    var r := CleanFilename(filename, index);
    forall i | 0 <= i < |r| ensures r[i] !in ForbiddenChars {
      if i < |pad| {
        assert r[i] == pad[i] && IsDigit(pad[i]);
      } else if i >= |pad| + 3 {
        assert r[i] == RemoveChars(filename, ForbiddenChars)[i - |pad| - 3];
      }
    }
  }

  /** A name that is already clean is only prefixed. */
  lemma CleanNameOnlyPrefixed(filename: string, index: nat)
    requires forall i :: 0 <= i < |filename| ==> filename[i] !in ForbiddenChars
    ensures CleanFilename(filename, index) == ZeroPad2(index) + " - " + filename
  {
    RemoveCharsAbsent(filename, ForbiddenChars);
  }

  /** The player reads the index back from a renamed file: audio and video numbering agree with it. */
  lemma PlayerReadsIndex(filename: string, index: nat, ext: string)
    ensures Player.AudioNumber(CleanFilename(filename, index) + ext) == index
    ensures Player.VideoNumber(CleanFilename(filename, index) + ext) == index
  {
    var pad := ZeroPad2(index);
    var tail := " - " + RemoveChars(filename, ForbiddenChars) + ext;
    assert CleanFilename(filename, index) + ext == pad + tail;
    LeadingDigitsOfNumeral(pad, tail);
    assert (pad + tail)[|pad|] == ' ';
  }

  /** `Path(name).suffix`: from the last dot, when that dot neither starts nor ends the name. */
  function Suffix(name: string): (r: string)
    ensures EndsWith(name, r)
  {
    var k := LastIndexOf(name, '.');
    if 0 < k < |name| - 1 then name[k..] else ""
  }

  /** `Path(name).stem`: the name without its suffix. */
  function Stem(name: string): (r: string)
    ensures StartsWith(name, r)
  {
    var k := LastIndexOf(name, '.');
    if 0 < k < |name| - 1 then name[..k] else name
  }

  /** Stem and suffix put together give the name back. */
  lemma StemSuffix(name: string)
    ensures Stem(name) + Suffix(name) == name
  {
  }

  /** The suffix of `stem.ext` is `.ext`, and its stem is `stem`, when `ext` holds no dot. */
  lemma StemAndSuffixOf(stem: string, ext: string)
    requires |stem| > 0 && |ext| > 0
    requires forall i :: 0 <= i < |ext| ==> ext[i] != '.'
    ensures Suffix(stem + "." + ext) == "." + ext
    ensures Stem(stem + "." + ext) == stem
  {
    var name := stem + "." + ext;
    assert name[|stem|] == '.';
    LastIndexOfIsLast(name, '.');
    assert forall j :: |stem| < j < |name| ==> name[j] == ext[j - |stem| - 1];
    assert LastIndexOf(name, '.') == |stem|;
    assert name[|stem|..] == "." + ext;
    assert name[..|stem|] == stem;
  }

  // ---------- Media files ----------

  /** The supported extensions. */
  const MediaExtensions: seq<string> := [".mp3", ".flac", ".wav", ".mp4", ".webm"]

  /** `f.lower().endswith(extensions)` */
  predicate IsMediaName(f: string) {
    exists i :: 0 <= i < |MediaExtensions| && EndsWith(ToLower(f), MediaExtensions[i])
  }

  /** `get_media_files(directory)`: the media names of a listing, sorted. */
  function GetMediaFiles(listing: seq<string>): seq<string> {
    Sorting.SortBy(Seqs.Filter(listing, IsMediaName), LexLe)
  }

  /** Python's string comparison orders all strings. */
  lemma LexLeTotalPreorder()
    ensures Sorting.TotalPreorder(LexLe)
  {
    forall a, b ensures LexLe(a, b) || LexLe(b, a) {
      LexLeTotal(a, b);
    }
    forall a, b, c | LexLe(a, b) && LexLe(b, c) ensures LexLe(a, c) {
      LexLeTransitive(a, b, c);
    }
  }

  /** The media files are exactly the listed names with a supported extension, in sorted order. */
  lemma MediaFilesSortedSelection(listing: seq<string>)
    ensures forall f :: f in GetMediaFiles(listing) <==> f in listing && IsMediaName(f)
    ensures Sorting.SortedBy(GetMediaFiles(listing), LexLe)
  {
    var selected := Seqs.Filter(listing, IsMediaName);
    forall f ensures f in GetMediaFiles(listing) <==> f in listing && IsMediaName(f) {
      Seqs.FilterMembership(listing, IsMediaName, f);
      assert f in GetMediaFiles(listing) <==> f in multiset(selected);
    }
    LexLeTotalPreorder();
    Sorting.SortBySorted(selected, LexLe);
  }

  // ---------- Track names ----------

  /** A non-empty name that starts and ends with a non-space, as `strip` leaves it. */
  predicate IsStripped(s: string) {
    |s| > 0 && !IsSpace(s[0]) && !IsSpace(s[|s| - 1])
  }

  /** `line.strip()`: blank, or stripped. */
  function StripLine(line: string): (r: string)
    ensures r == "" || IsStripped(r)
  {
    Trim(line)
  }

  /** Each line stripped, blank ones dropped. */
  function Stripped(lines: seq<string>): seq<string>
    decreases |lines|
  {
    if |lines| == 0 then []
    else
      var t := StripLine(lines[|lines| - 1]);
      Stripped(lines[..|lines| - 1]) + (if t != "" then [t] else [])
  }

  /** `[line.strip() for line in f if line.strip()]` over the text of `tracks.txt`. */
  function ReadNames(text: string): seq<string> {
    Stripped(Split(text, '\n'))
  }

  /** Every read name is non-empty and stripped: blank lines are ignored. */
  lemma {:induction false} ReadNameIsStripped(lines: seq<string>, k: nat)
    requires k < |Stripped(lines)|
    ensures IsStripped(Stripped(lines)[k])
    decreases |lines|
  {
    var init := lines[..|lines| - 1];
    if k < |Stripped(init)| {
      ReadNameIsStripped(init, k);
    }
  }

  /** A stripped name is its own trim. */
  lemma TrimOfStripped(s: string)
    requires IsStripped(s)
    ensures Trim(s) == s
  {
  }

  /** Lines that are already stripped are kept as they are. */
  lemma {:induction false} StrippedKeepsStripped(lines: seq<string>)
    requires forall k :: 0 <= k < |lines| ==> IsStripped(lines[k])
    ensures Stripped(lines) == lines
    decreases |lines|
  {
    if |lines| > 0 {
      var init := lines[..|lines| - 1];
      assert forall k :: 0 <= k < |init| ==> init[k] == lines[k];
      StrippedKeepsStripped(init);
      TrimOfStripped(lines[|lines| - 1]);
      assert init + [lines[|lines| - 1]] == lines;
    }
  }

  /** Writing the names one per line and reading `tracks.txt` back gives the same names. */
  lemma ReadNamesOfLines(names: seq<string>)
    requires forall k :: 0 <= k < |names| ==> IsStripped(names[k])
    requires forall k, j :: 0 <= k < |names| && 0 <= j < |names[k]| ==> names[k][j] != '\n'
    ensures ReadNames(Join(names, "\n")) == names
  {
    if |names| == 0 {
      assert Stripped(Split("", '\n')) == Stripped([""]);
      assert Trim("") == "";
    } else {
      SplitJoin(names, '\n');
      StrippedKeepsStripped(names);
    }
  }

  // ---------- Renaming ----------

  /** One rename of the plan. */
  datatype Rename = Rename(source: string, target: string)

  /** The new name of the file `current` for track `name` at 1-based position `index`: the old extension is kept. */
  function NewName(current: string, name: string, index: nat): string {
    CleanFilename(name, index) + Suffix(current)
  }

  /** `zip(current_files, new_names)` numbered from 1: as many renames as the shorter list. */
  function Plan(files: seq<string>, names: seq<string>): seq<Rename> {
    var n := if |files| < |names| then |files| else |names|;
    seq(n, i requires 0 <= i < n => Rename(files[i], NewName(files[i], names[i], i + 1)))
  }

  /** The plan pairs files and names by position, keeps each extension and numbers the tracks from 1. */
  lemma PlanPairsByPosition(files: seq<string>, names: seq<string>, i: nat)
    requires i < |files| && i < |names|
    ensures |Plan(files, names)| == if |files| < |names| then |files| else |names|
    ensures Plan(files, names)[i].source == files[i]
    ensures EndsWith(Plan(files, names)[i].target, Suffix(files[i]))
    ensures Player.AudioNumber(Plan(files, names)[i].target) == i + 1
  {
    var p := Plan(files, names);
    assert p[i] == Rename(files[i], NewName(files[i], names[i], i + 1));
    PlayerReadsIndex(names[i], i + 1, Suffix(files[i]));
  }

  /** How `main` ends before renaming, or the renames it performs. */
  datatype Decision =
    | MissingTrackList
    | NoMediaFiles
    | Declined
    | Cancelled
    | Proceed(plan: seq<Rename>)

  /** An answer to a yes/no prompt counts as yes. */
  predicate IsYes(answer: string) {
    ToLower(answer) == "yes"
  }

  /** `main`'s checks, in order: `tracks.txt` exists, media files exist, a count mismatch is accepted, the renames are confirmed. */
  function Decide(tracksFile: Option<string>, listing: seq<string>, proceed: string, response: string): (d: Decision)
    ensures d.Proceed? ==> tracksFile.Some? && IsYes(response)
    ensures d.Proceed? ==> d.plan == Plan(GetMediaFiles(listing), ReadNames(tracksFile.value))
    ensures d.Proceed? && |GetMediaFiles(listing)| != |ReadNames(tracksFile.value)| ==> IsYes(proceed)
    ensures (tracksFile.Some? && |GetMediaFiles(listing)| > 0 && IsYes(response)
             && (|GetMediaFiles(listing)| == |ReadNames(tracksFile.value)| || IsYes(proceed))) ==> d.Proceed?
  {
    match tracksFile
    case None => MissingTrackList
    case Some(text) =>
      var names := ReadNames(text);
      var files := GetMediaFiles(listing);
      if |files| == 0 then NoMediaFiles
      else if |files| != |names| && !IsYes(proceed) then Declined
      else if !IsYes(response) then Cancelled
      else Proceed(Plan(files, names))
  }

  /** With every file named, every file is renamed. */
  lemma MatchingCountsRenameAll(text: string, listing: seq<string>, proceed: string)
    requires |GetMediaFiles(listing)| == |ReadNames(text)| > 0
    ensures Decide(Some(text), listing, proceed, "yes") == Proceed(Plan(GetMediaFiles(listing), ReadNames(text)))
    ensures |Decide(Some(text), listing, proceed, "yes").plan| == |GetMediaFiles(listing)|
  {
    YesIsYes();
    var files := GetMediaFiles(listing);
    var names := ReadNames(text);
    assert Decide(Some(text), listing, proceed, "yes") == Proceed(Plan(files, names));
  }

  /** Typing `yes` answers yes. */
  lemma YesIsYes()
    ensures IsYes("yes")
  {
    var r := ToLower("yes");
    assert r[0] == 'y' && r[1] == 'e' && r[2] == 's';
  }

  /** `os.rename(source, target)` on the folder's map: the contents move, replacing any file named `target`. */
  function Moved(files: map<string, nat>, source: string, target: string): map<string, nat>
    requires source in files
  {
    (files - {source})[target := files[source]]
  }

  /** After a rename the target holds the source's contents, the source is gone, and every other file is as it was. */
  lemma MovedMoves(files: map<string, nat>, source: string, target: string, k: string)
    requires source in files
    ensures target in Moved(files, source, target) && Moved(files, source, target)[target] == files[source]
    ensures source != target ==> source !in Moved(files, source, target)
    ensures k != source && k != target ==> (k in Moved(files, source, target) <==> k in files)
    ensures k != source && k != target && k in files ==> Moved(files, source, target)[k] == files[k]
  {
  }

  /** The folder after the renames of a plan, and the sources that could not be renamed, in order. */
  function Applied(files: map<string, nat>, plan: seq<Rename>): (map<string, nat>, seq<string>)
    decreases |plan|
  {
    if |plan| == 0 then (files, [])
    else
      var before := Applied(files, plan[..|plan| - 1]);
      var step := plan[|plan| - 1];
      if step.source in before.0 then (Moved(before.0, step.source, step.target), before.1)
      else (before.0, before.1 + [step.source])
  }

  /** A file the plan does not mention keeps its name and contents. */
  lemma {:induction false} AppliedLeavesOthers(files: map<string, nat>, plan: seq<Rename>, k: string)
    requires forall i :: 0 <= i < |plan| ==> k != plan[i].source && k != plan[i].target
    ensures k in Applied(files, plan).0 <==> k in files
    ensures k in files ==> Applied(files, plan).0[k] == files[k]
    decreases |plan|
  {
    if |plan| > 0 {
      var init := plan[..|plan| - 1];
      AppliedLeavesOthers(files, init, k);
      var step := plan[|plan| - 1];
      if step.source in Applied(files, init).0 {
        MovedMoves(Applied(files, init).0, step.source, step.target, k);
      }
    }
  }

  /** Every failed rename is one the plan asked for. */
  lemma {:induction false} FailuresArePlanned(files: map<string, nat>, plan: seq<Rename>)
    ensures forall f :: f in Applied(files, plan).1 ==> exists i :: 0 <= i < |plan| && plan[i].source == f
    decreases |plan|
  {
    if |plan| > 0 {
      var init := plan[..|plan| - 1];
      FailuresArePlanned(files, init);
      forall f | f in Applied(files, plan).1 ensures exists i :: 0 <= i < |plan| && plan[i].source == f {
        if f in Applied(files, init).1 {
          var i :| 0 <= i < |init| && init[i].source == f;
          assert plan[i].source == f;
        } else {
          assert plan[|plan| - 1].source == f;
        }
      }
    }
  }

  /** The current directory: file names and their contents. */
  class Folder {
    var files: map<string, nat>

    constructor(files: map<string, nat>)
      ensures this.files == files
    {
      this.files := files;
    }

    /** `os.rename(source, target)`; a missing source raises, and nothing changes. */
    method Rename(source: string, target: string) returns (ok: bool)
      modifies this
      ensures ok <==> source in old(files)
      ensures ok ==> files == Moved(old(files), source, target)
      ensures !ok ==> files == old(files)
    {
      if source in files {
        files := Moved(files, source, target);
        ok := true;
      } else {
        ok := false;
      }
    }
  }

  /**
   * `main`: decides, then renames each pair in order; a rename that raises is reported and the
   * loop goes on. Returns the decision and the sources that could not be renamed.
   */
  method RenameAll(folder: Folder, tracksFile: Option<string>, listing: seq<string>, proceed: string, response: string)
    returns (d: Decision, failed: seq<string>)
    modifies folder
    ensures d == Decide(tracksFile, listing, proceed, response)
    ensures !d.Proceed? ==> folder.files == old(folder.files) && failed == []
    ensures d.Proceed? ==> (folder.files, failed) == Applied(old(folder.files), d.plan)
  {
    d := Decide(tracksFile, listing, proceed, response);
    failed := [];
    if d.Proceed? {
      failed := ApplyPlan(folder, d.plan);
    }
  }

  /** The renaming loop of `main`: each pair in order; a rename that raises is recorded and skipped. */
  method ApplyPlan(folder: Folder, plan: seq<Rename>) returns (failed: seq<string>)
    modifies folder
    ensures (folder.files, failed) == Applied(old(folder.files), plan)
  {
    failed := [];
    var i := 0;
    while i < |plan|
      invariant 0 <= i <= |plan|
      invariant (folder.files, failed) == Applied(old(folder.files), plan[..i])
    {
      assert plan[..i + 1][..i] == plan[..i];
      var ok := folder.Rename(plan[i].source, plan[i].target);
      if !ok {
        failed := failed + [plan[i].source];
      }
      i := i + 1;
    }
    assert plan[..i] == plan;
  }
}
