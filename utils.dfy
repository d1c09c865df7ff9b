/**
 * The helpers of `lib/utils.js` that the deployment engine relies on: path normalisation,
 * the extension tables, the input validators, configuration loading and error records.
 */
module Utils {
  import opened Wrappers
  import opened Text

  // ---------- Hashes ----------

  /** `generateShortHash`: the first 16 characters of a full hash. */
  function GenerateShortHash(fullHash: string): (r: string)
    ensures |r| == if |fullHash| < 16 then |fullHash| else 16
    ensures StartsWith(fullHash, r)
  {
    Take(fullHash, 16)
  }

  // ---------- Path normalisation ----------

  /** Every backslash becomes a forward slash (`replace(/\\/g, '/')`). */
  function ReplaceBackslashes(s: string): (r: string)
    ensures |r| == |s|
  {
    seq(|s|, i requires 0 <= i < |s| => if s[i] == '\\' then '/' else s[i])
  }

  /** No two consecutive slashes. */
  predicate NoDoubleSlash(s: string) {
    forall i :: 0 <= i < |s| - 1 ==> !(s[i] == '/' && s[i + 1] == '/')
  }

  /** The shape every normalised path has. */
  predicate Normalized(s: string) {
    (forall i :: 0 <= i < |s| ==> s[i] != '\\') && NoDoubleSlash(s)
  }

  /** Every run of slashes becomes one slash (`replace(/\/+/g, '/')`). */
  function CollapseSlashes(s: string): (r: string)
    ensures |s| > 0 ==> |r| > 0 && r[0] == s[0]
    decreases |s|
  {
    if |s| < 2 then s
    else if s[0] == '/' && s[1] == '/' then CollapseSlashes(s[1..])
    else
      var rest := CollapseSlashes(s[1..]);
      [s[0]] + rest
  }

  /** Collapsing leaves no two consecutive slashes. */
  lemma {:induction false} CollapseLeavesNoDoubleSlash(s: string)
    ensures NoDoubleSlash(CollapseSlashes(s))
    decreases |s|
  {
    if |s| >= 2 {
      CollapseLeavesNoDoubleSlash(s[1..]);
      if !(s[0] == '/' && s[1] == '/') {
        var rest := CollapseSlashes(s[1..]);
        assert forall i :: 1 <= i < |[s[0]] + rest| ==> ([s[0]] + rest)[i] == rest[i - 1];
      }
    }
  }

  /** Collapsing introduces no character that was not there before. */
  lemma {:induction false} CollapseAddsNoChar(s: string, c: char)
    requires forall i :: 0 <= i < |s| ==> s[i] != c
    ensures forall i :: 0 <= i < |CollapseSlashes(s)| ==> CollapseSlashes(s)[i] != c
    decreases |s|
  {
    if |s| >= 2 {
      CollapseAddsNoChar(s[1..], c);
      if !(s[0] == '/' && s[1] == '/') {
        var rest := CollapseSlashes(s[1..]);
        assert forall i :: 1 <= i < |[s[0]] + rest| ==> ([s[0]] + rest)[i] == rest[i - 1];
      }
    }
  }

  /** `normalizePath`: backslashes become slashes, then runs of slashes collapse to one. */
  function NormalizePath(p: string): string {
    CollapseSlashes(ReplaceBackslashes(p))
  }

  /** A normalised path has forward slashes only and no empty segments between slashes. */
  lemma NormalizedPath(p: string)
    ensures Normalized(NormalizePath(p))
  {
    CollapseAddsNoChar(ReplaceBackslashes(p), '\\');
    CollapseLeavesNoDoubleSlash(ReplaceBackslashes(p));
  }

  /** Collapsing a string that has no double slash changes nothing. */
  lemma {:induction false} CollapseNoDoubleSlash(s: string)
    requires NoDoubleSlash(s)
    ensures CollapseSlashes(s) == s
    decreases |s|
  {
    if |s| >= 2 {
      CollapseNoDoubleSlash(s[1..]);
    }
  }

  /** A path is left unchanged by `NormalizePath` exactly when it is already normalised. */
  lemma NormalizeFixpoint(p: string)
    ensures NormalizePath(p) == p <==> Normalized(p)
  {
    NormalizedPath(p);
    if Normalized(p) {
      assert ReplaceBackslashes(p) == p;
      CollapseNoDoubleSlash(p);
    }
  }

  /** Normalising twice is normalising once. */
  lemma NormalizeIdempotent(p: string)
    ensures NormalizePath(NormalizePath(p)) == NormalizePath(p)
  {
    NormalizedPath(p);
    NormalizeFixpoint(NormalizePath(p));
  }

  /** The characters other than slashes survive collapsing, in order. */
  lemma {:induction false} CollapseKeepsText(s: string)
    ensures RemoveChars(CollapseSlashes(s), {'/'}) == RemoveChars(s, {'/'})
    decreases |s|
  {
    if |s| >= 2 {
      CollapseKeepsText(s[1..]);
      if !(s[0] == '/' && s[1] == '/') {
        var rest := CollapseSlashes(s[1..]);
        assert ([s[0]] + rest)[1..] == rest;
      }
    }
  }

  /** Normalisation keeps every character that is not a path separator, in order. */
  lemma NormalizeKeepsText(p: string)
    ensures RemoveChars(NormalizePath(p), {'/'}) == RemoveChars(p, {'/', '\\'})
  {
    CollapseKeepsText(ReplaceBackslashes(p));
    ReplaceKeepsText(p);
  }

  lemma {:induction false} ReplaceKeepsText(p: string)
    ensures RemoveChars(ReplaceBackslashes(p), {'/'}) == RemoveChars(p, {'/', '\\'})
    decreases |p|
  {
    if |p| > 0 {
      ReplaceKeepsText(p[1..]);
      assert ReplaceBackslashes(p)[1..] == ReplaceBackslashes(p[1..]);
    }
  }

  // ---------- Paths ----------

  /**
   * What `path.join` puts in front of a name joined onto `dir`: nothing for `""` and `.`, the
   * directory itself when it already ends in a slash, otherwise the directory and a slash.
   */
  function DirPrefix(dir: string): (r: string)
    ensures r == "" || r[|r| - 1] == '/'
    ensures r == "" <==> (dir == "" || (|dir| == 1 && dir[0] == '.'))
  {
    if |dir| == 0 || (|dir| == 1 && dir[0] == '.') then ""
    else if dir[|dir| - 1] == '/' then dir
    else dir + "/"
  }

  /**
   * `path.join(dir, name)` for a relative name, where `dir` holds no `.`, `..` or empty segment
   * beyond a trailing slash or a lone `.`.
   */
  function JoinPath(dir: string, name: string): (r: string)
    ensures r == DirPrefix(dir) + name
    ensures |dir| > 1 && dir[|dir| - 1] != '/' ==> r == dir + "/" + name
    ensures |dir| > 0 && dir[|dir| - 1] == '/' ==> r == dir + name
  {
    DirPrefix(dir) + name
  }

  /** `path.relative(dir, file)` for a file inside `dir`. */
  function RelativePath(dir: string, file: string): (r: string)
    ensures StartsWith(file, DirPrefix(dir)) ==> file == JoinPath(dir, r)
  {
    var prefix := DirPrefix(dir);
    if StartsWith(file, prefix) then file[|prefix|..] else file
  }

  /** The relative path of a joined path is the name that was joined. */
  lemma RelativeOfJoin(dir: string, name: string)
    ensures RelativePath(dir, JoinPath(dir, name)) == name
  {
    assert StartsWith(JoinPath(dir, name), DirPrefix(dir));
  }

  /** `path.join` adds no second slash after a directory given with a trailing one. */
  lemma JoinTrailingSlash(dir: string, name: string)
    ensures JoinPath(dir + "/", name) == dir + "/" + name
  {
    if |dir| == 0 {
      assert DirPrefix("/") == "/";
    }
  }

  /** `path.basename(p)`: the text after the last slash. */
  function BaseName(p: string): (r: string)
    ensures EndsWith(p, r)
  {
    p[LastIndexOf(p, '/') + 1..]
  }

  /** A base name holds no slash. */
  lemma BaseNameHasNoSlash(p: string)
    ensures forall k :: 0 <= k < |BaseName(p)| ==> BaseName(p)[k] != '/'
  {
    var i := LastIndexOf(p, '/');
    LastIndexOfIsLast(p, '/');
    forall k | 0 <= k < |BaseName(p)|
      ensures BaseName(p)[k] != '/'
    {
      assert BaseName(p)[k] == p[i + 1 + k];
    }
  }

  /** The base name of a joined path is the joined name when it holds no slash. */
  lemma BaseNameOfJoin(dir: string, name: string)
    requires forall i :: 0 <= i < |name| ==> name[i] != '/'
    ensures BaseName(JoinPath(dir, name)) == name
  {
    var prefix := DirPrefix(dir);
    var p := JoinPath(dir, name);
    LastIndexOfIsLast(p, '/');
    assert forall j :: |prefix| <= j < |p| ==> p[j] == name[j - |prefix|];
    if |prefix| > 0 {
      assert p[|prefix| - 1] == '/';
    }
  }

  /** `path.extname(p)`: from the last dot of the base name, unless the dot leads the name. */
  function ExtName(p: string): (r: string)
    ensures r == "" || (r[0] == '.' && EndsWith(BaseName(p), r))
  {
    var b := BaseName(p);
    var i := LastIndexOf(b, '.');
    if i <= 0 || IsDotDot(b) then "" else b[i..]
  }

  /** The base name `..`, which has no extension. */
  predicate IsDotDot(b: string) {
    |b| == 2 && b[0] == '.' && b[1] == '.'
  }

  /** `path.extname(p).toLowerCase()` */
  function LowerExt(p: string): string {
    ToLower(ExtName(p))
  }

  // ---------- Extension tables ----------

  /** The extensions `isBinaryFile` treats as binary content. */
  const BinaryExtensions: set<string> := {
    ".png", ".jpg", ".jpeg", ".gif", ".svg", ".ico", ".webp", ".bmp", ".tiff", ".tif",
    ".woff", ".woff2", ".ttf", ".eot", ".otf",
    ".zip", ".rar", ".7z", ".tar", ".gz",
    ".pdf", ".doc", ".docx", ".xls", ".xlsx", ".ppt", ".pptx",
    ".mp3", ".mp4", ".avi", ".mov", ".wav", ".flac", ".ogg",
    ".exe", ".dll", ".so", ".dylib",
    ".bin", ".dat", ".db", ".sqlite", ".sqlite3"
  }

  /** `isBinaryFile` */
  predicate IsBinaryFile(p: string) {
    LowerExt(p) in BinaryExtensions
  }

  /** The content type of each known extension, `None` for an extension the table lacks. */
  function ContentTypeOf(ext: string): Option<string> {
    match ext
    case ".txt" => Some("text/plain")
    case ".md" => Some("text/markdown")
    case ".html" => Some("text/html")
    case ".htm" => Some("text/html")
    case ".css" => Some("text/css")
    case ".js" => Some("application/javascript")
    case ".json" => Some("application/json")
    case ".xml" => Some("application/xml")
    case ".csv" => Some("text/csv")
    case ".png" => Some("image/png")
    case ".jpg" => Some("image/jpeg")
    case ".jpeg" => Some("image/jpeg")
    case ".gif" => Some("image/gif")
    case ".svg" => Some("image/svg+xml")
    case ".ico" => Some("image/x-icon")
    case ".webp" => Some("image/webp")
    case ".bmp" => Some("image/bmp")
    case ".tiff" => Some("image/tiff")
    case ".tif" => Some("image/tiff")
    case ".woff" => Some("font/woff")
    case ".woff2" => Some("font/woff2")
    case ".ttf" => Some("font/ttf")
    case ".eot" => Some("application/vnd.ms-fontobject")
    case ".otf" => Some("font/otf")
    case ".zip" => Some("application/zip")
    case ".rar" => Some("application/x-rar-compressed")
    case ".7z" => Some("application/x-7z-compressed")
    case ".tar" => Some("application/x-tar")
    case ".gz" => Some("application/gzip")
    case ".pdf" => Some("application/pdf")
    case ".doc" => Some("application/msword")
    case ".docx" => Some("application/vnd.openxmlformats-officedocument.wordprocessingml.document")
    case ".xls" => Some("application/vnd.ms-excel")
    case ".xlsx" => Some("application/vnd.openxmlformats-officedocument.spreadsheetml.sheet")
    case ".ppt" => Some("application/vnd.ms-powerpoint")
    case ".pptx" => Some("application/vnd.openxmlformats-officedocument.presentationml.presentation")
    case ".mp3" => Some("audio/mpeg")
    case ".mp4" => Some("video/mp4")
    case ".avi" => Some("video/x-msvideo")
    case ".mov" => Some("video/quicktime")
    case ".wav" => Some("audio/wav")
    case ".flac" => Some("audio/flac")
    case ".ogg" => Some("audio/ogg")
    case ".webm" => Some("video/webm")
    case ".bin" => Some("application/octet-stream")
    case ".dat" => Some("application/octet-stream")
    case ".db" => Some("application/octet-stream")
    case ".sqlite" => Some("application/x-sqlite3")
    case ".sqlite3" => Some("application/x-sqlite3")
    case _ => None
  }

  const DefaultContentType := "application/octet-stream"

  /** `guessContentType`: the table entry of the lower-cased extension, else the default. */
  function GuessContentType(p: string): (r: string)
    ensures ContentTypeOf(LowerExt(p)).Some? ==> r == ContentTypeOf(LowerExt(p)).value
    ensures ContentTypeOf(LowerExt(p)).None? ==> r == DefaultContentType
  {
    ContentTypeOf(LowerExt(p)).GetOr(DefaultContentType)
  }

  /** `LastIndexOf` does not see case changes when looking for a character that is not a letter. */
  lemma {:induction false} LastIndexOfToLower(s: string, c: char)
    requires !('A' <= c <= 'Z') && !('a' <= c <= 'z')
    ensures LastIndexOf(ToLower(s), c) == LastIndexOf(s, c)
    decreases |s|
  {
    if |s| > 0 {
      LastIndexOfToLower(s[..|s| - 1], c);
      assert ToLower(s)[..|s| - 1] == ToLower(s[..|s| - 1]);
    }
  }

  /** The base name of a lower-cased path is the lower-cased base name. */
  lemma BaseNameToLower(p: string)
    ensures BaseName(ToLower(p)) == ToLower(BaseName(p))
  {
    LastIndexOfToLower(p, '/');
    var i := LastIndexOf(p, '/');
    ToLowerSuffix(p, i + 1);
  }

  lemma ToLowerSuffix(s: string, k: nat)
    requires k <= |s|
    ensures ToLower(s)[k..] == ToLower(s[k..])
  {
  }

  /** The extension of a lower-cased path is the lower-cased extension. */
  lemma ExtNameToLower(p: string)
    ensures ExtName(ToLower(p)) == ToLower(ExtName(p))
  {
    BaseNameToLower(p);
    var b := BaseName(p);
    var lb := BaseName(ToLower(p));
    assert lb == ToLower(b);
    LastIndexOfToLower(b, '.');
    var i := LastIndexOf(b, '.');
    assert IsDotDot(lb) == IsDotDot(b);
    if i > 0 && !IsDotDot(b) {
      ToLowerSuffix(b, i);
    }
  }

  /** Content type and binary classification ignore the case of the path. */
  lemma ClassificationIgnoresCase(p: string)
    ensures GuessContentType(ToLower(p)) == GuessContentType(p)
    ensures IsBinaryFile(ToLower(p)) == IsBinaryFile(p)
  {
    ExtNameToLower(p);
    ToLowerIdempotent(ExtName(p));
  }

  // ---------- Validation ----------

  const MaxContentLength := 10 * 1024 * 1024

  const EmptyContentError := "File content cannot be empty"
  const LargeContentError := "File content too large (max 10MB)"
  const FilePathError := "File path must be relative and not contain parent directory references"

  /** `validateFileContent`: content must be non-empty and at most 10 MiB characters. */
  function ValidateFileContent(content: string): (r: Result<bool>)
    ensures r.Ok? <==> 0 < |content| <= MaxContentLength
    ensures r.Ok? ==> r.value
    ensures |content| == 0 ==> r == Err(EmptyContentError)
    ensures |content| > MaxContentLength ==> r == Err(LargeContentError)
  {
    if |content| == 0 then Err(EmptyContentError)
    else if |content| > MaxContentLength then Err(LargeContentError)
    else Ok(true)
  }

  /** `validateFilePath`: no `..` anywhere and no leading slash. */
  function ValidateFilePath(p: string): (r: Result<bool>)
    ensures r.Ok? <==> !Contains(p, "..") && !StartsWith(p, "/")
    ensures r.Ok? ==> r.value
    ensures r.Err? ==> r.error == FilePathError
  {
    if Contains(p, "..") || StartsWith(p, "/") then Err(FilePathError) else Ok(true)
  }

  /** The first part of a split is a prefix of the string. */
  lemma {:induction false} SplitFirstIsPrefix(s: string, sep: char)
    ensures StartsWith(s, Split(s, sep)[0])
    decreases |s|
  {
    if |s| > 0 && s[0] != sep {
      SplitFirstIsPrefix(s[1..], sep);
    }
  }

  /** A path with a `..` segment contains `..`. */
  lemma {:induction false} ParentSegmentContainsDots(s: string, i: nat)
    requires i < |Split(s, '/')| && Split(s, '/')[i] == ".."
    ensures Contains(s, "..")
    decreases |s|
  {
    var rest := Split(s[1..], '/');
    if s[0] == '/' {
      ParentSegmentContainsDots(s[1..], i - 1);
    } else if i == 0 {
      SplitFirstIsPrefix(s[1..], '/');
      assert ([s[0]] + rest[0])[1..] == rest[0];
      assert s[1..][..1] == ".";
      assert s[..2] == "..";
    } else {
      ParentSegmentContainsDots(s[1..], i);
    }
  }

  /** An accepted path is relative and has no parent-directory segment. */
  lemma AcceptedPathStaysInside(p: string)
    requires ValidateFilePath(p).Ok?
    ensures forall i :: 0 <= i < |Split(p, '/')| ==> Split(p, '/')[i] != ".."
    ensures |p| > 0 ==> p[0] != '/'
  {
    forall i | 0 <= i < |Split(p, '/')|
      ensures Split(p, '/')[i] != ".."
    {
      if Split(p, '/')[i] == ".." {
        ParentSegmentContainsDots(p, i);
      }
    }
  }

  // ---------- Configuration ----------

  /** The process environment: variable names to values. */
  type Env = map<string, string>

  /** `process.env[name]` when it is set to a non-empty string (the truthy case). */
  function EnvValue(env: Env, name: string): (r: Option<string>)
    ensures r.Some? <==> name in env && env[name] != ""
    ensures r.Some? ==> r.value == env[name]
  {
    if name in env && env[name] != "" then Some(env[name]) else None
  }

  /** `process.env[name] || fallback` */
  function EnvOr(env: Env, name: string, fallback: string): string {
    EnvValue(env, name).GetOr(fallback)
  }

  /**
   * `parseInt(s)` with no radix: optional leading blanks and sign, then either `0x`/`0X` and the
   * leading hexadecimal digits or the leading decimal digits; `None` is NaN.
   */
  function ParseInt(s: string): (r: Option<int>)
    ensures r.Some? ==> |s| > 0
  {
    var t := TrimStart(s);
    var negative := |t| > 0 && t[0] == '-';
    var body := if |t| > 0 && (t[0] == '-' || t[0] == '+') then t[1..] else t;
    if HexPrefixed(body) then
      var digits := LeadingRadixDigits(body[2..], 16);
      if |digits| == 0 then None
      else
        var v: int := RadixValue(digits, 16);
        Some(if negative then -v else v)
    else
      var digits := LeadingDigits(body);
      if |digits| == 0 then None
      else
        var v: int := DigitsValue(digits);
        Some(if negative then -v else v)
  }

  /** `s` starts with `0x` or `0X`. */
  predicate HexPrefixed(s: string) {
    |s| >= 2 && s[0] == '0' && (s[1] == 'x' || s[1] == 'X')
  }

  /** A hexadecimal numeral after `0x` parses to its value. */
  lemma ParseIntOfHex(digits: string)
    requires |digits| > 0 && AllRadixDigits(digits, 16)
    ensures ParseInt("0x" + digits) == Some(RadixValue(digits, 16))
  {
    var s := "0x" + digits;
    assert s[0] == '0' && s[1] == 'x' && s[2..] == digits;
    TrimStartUnchanged(s);
    LeadingRadixDigitsOfDigits(digits, 16);
    ParseIntHexText(s);
  }

  lemma TrimStartUnchanged(s: string)
    requires |s| > 0 && !IsSpace(s[0])
    ensures TrimStart(s) == s
  {
  }

  lemma ParseIntHexText(s: string)
    requires TrimStart(s) == s && HexPrefixed(s) && |LeadingRadixDigits(s[2..], 16)| > 0
    ensures ParseInt(s) == Some(RadixValue(LeadingRadixDigits(s[2..], 16), 16))
  {
  }

  /** `parseInt("0x3c")` is 60, as a TTL written in hexadecimal reads. */
  lemma ParseIntHexTtl()
    ensures ParseInt("0x3c") == Some(60)
  {
    assert "0x3c" == "0x" + "3c";
    HexTtlDigits();
    ParseIntOfHex("3c");
  }

  lemma HexTtlDigits()
    ensures AllRadixDigits("3c", 16) && RadixValue("3c", 16) == 60
  {
    assert "3c"[..1] == "3";
    assert RadixValue("3c", 16) == RadixValue("3", 16) * 16 + 12;
  }

  /** `parseInt` reads back every rendered natural number. */
  lemma ParseIntOfNat(n: nat)
    ensures ParseInt(NatToString(n)) == Some(n)
  {
    NatToStringRoundTrip(n);
    ParseIntOfDigits(NatToString(n));
  }

  /** A non-empty string of digits parses to its value. */
  lemma ParseIntOfDigits(s: string)
    requires |s| > 0 && AllDigits(s)
    ensures ParseInt(s) == Some(DigitsValue(s))
  {
    assert !IsSpace(s[0]);
    assert TrimStart(s) == s;
    assert s[0] != '-' && s[0] != '+';
    assert !HexPrefixed(s) by {
      if |s| >= 2 {
        assert IsDigit(s[1]);
      }
    }
    LeadingDigitsOfDigits(s);
  }

  lemma {:induction false} LeadingDigitsOfDigits(s: string)
    requires AllDigits(s)
    ensures LeadingDigits(s) == s
    decreases |s|
  {
    if |s| > 0 {
      LeadingDigitsOfDigits(s[1..]);
    }
  }

  /** `parseInt(v)` when it is a number other than 0 and NaN (the truthy case). */
  function TruthyInt(v: Option<string>): (r: Option<int>)
    ensures r.Some? ==> r.value != 0
  {
    match v
    case None => None
    case Some(s) =>
      match ParseInt(s)
      case Some(n) => if n != 0 then Some(n) else None
      case None => None
  }

  /** The configuration `loadConfig` returns. */
  datatype Config = Config(
    antProcessId: string,
    rootArnsName: string,
    walletAddress: Option<string>,
    walletPath: string,
    walletJson: Option<string>,
    arnsTtl: int,
    turboPaymentUrl: string,
    turboUploadUrl: string,
    useSharedCredits: bool,
    sharedCreditsPaidBy: Option<seq<string>>,
    appName: string,
    arweaveGateway: string,
    port: int,
    discordWebhookUrl: Option<string>)

  const DefaultArnsTtl := 60
  const AntProcessIdError := "ANT_PROCESS_ID environment variable is required"
  const RootArnsNameError := "ROOT_ARNS_NAME environment variable is required"

  /** `arnsTtl`: the first TTL variable that parses to a non-zero number, else 60 seconds. */
  function ArnsTtl(env: Env): (ttl: int)
    ensures ttl != 0
    ensures TruthyInt(EnvValue(env, "ARNS_UNDERNAME_TTL")).Some? ==> ttl == TruthyInt(EnvValue(env, "ARNS_UNDERNAME_TTL")).value
    ensures TruthyInt(EnvValue(env, "ARNS_UNDERNAME_TTL")).None? && TruthyInt(EnvValue(env, "DEFAULT_TTL_SECONDS")).Some?
      ==> ttl == TruthyInt(EnvValue(env, "DEFAULT_TTL_SECONDS")).value
    ensures TruthyInt(EnvValue(env, "ARNS_UNDERNAME_TTL")).None? && TruthyInt(EnvValue(env, "DEFAULT_TTL_SECONDS")).None?
      ==> ttl == DefaultArnsTtl
  {
    match TruthyInt(EnvValue(env, "ARNS_UNDERNAME_TTL"))
    case Some(n) => n
    case None => TruthyInt(EnvValue(env, "DEFAULT_TTL_SECONDS")).GetOr(DefaultArnsTtl)
  }

  /** `sharedCreditsPaidBy`: the comma-separated addresses, each trimmed, when the variable is set. */
  function SharedCreditsPaidBy(env: Env): (r: Option<seq<string>>)
    ensures r.Some? <==> EnvValue(env, "TURBO_SHARED_CREDITS_PAID_BY").Some?
    ensures r.Some? ==> (|r.value| == |Split(env["TURBO_SHARED_CREDITS_PAID_BY"], ',')|
      && forall i :: 0 <= i < |r.value| ==> r.value[i] == Trim(Split(env["TURBO_SHARED_CREDITS_PAID_BY"], ',')[i]))
  {
    match EnvValue(env, "TURBO_SHARED_CREDITS_PAID_BY")
    case None => None
    case Some(v) =>
      var parts := Split(v, ',');
      Some(seq(|parts|, i requires 0 <= i < |parts| => Trim(parts[i])))
  }

  /** `loadConfig`: fails when the ANT process id or the root ArNS name is missing, checked in that order. */
  function LoadConfig(env: Env): (r: Result<Config>)
    ensures r.Ok? <==> EnvValue(env, "ANT_PROCESS_ID").Some? && EnvValue(env, "ROOT_ARNS_NAME").Some?
    ensures EnvValue(env, "ANT_PROCESS_ID").None? ==> r == Err(AntProcessIdError)
    ensures EnvValue(env, "ANT_PROCESS_ID").Some? && EnvValue(env, "ROOT_ARNS_NAME").None?
      ==> r == Err(RootArnsNameError)
    ensures r.Ok? ==> (r.value.antProcessId == env["ANT_PROCESS_ID"]
      && r.value.rootArnsName == env["ROOT_ARNS_NAME"]
      && r.value.arnsTtl == ArnsTtl(env)
      && r.value.useSharedCredits == ("TURBO_USE_SHARED_CREDITS" in env
           && env["TURBO_USE_SHARED_CREDITS"] in {"true", "1"})
      && r.value.sharedCreditsPaidBy == SharedCreditsPaidBy(env))
  {
    var ant := EnvValue(env, "ANT_PROCESS_ID");
    var root := EnvValue(env, "ROOT_ARNS_NAME");
    if ant.None? then Err(AntProcessIdError)
    else if root.None? then Err(RootArnsNameError)
    else
      Ok(Config(
        antProcessId := ant.value,
        rootArnsName := root.value,
        walletAddress := EnvValue(env, "WALLET_ADDRESS"),
        walletPath := EnvOr(env, "ARWEAVE_WALLET_PATH", "./secrets/wallet.json"),
        walletJson := EnvValue(env, "ARWEAVE_JWK_JSON"),
        arnsTtl := ArnsTtl(env),
        turboPaymentUrl := EnvOr(env, "TURBO_PAYMENT_SERVICE_URL", "https://payment.ardrive.dev"),
        turboUploadUrl := EnvOr(env, "TURBO_UPLOAD_SERVICE_URL", "https://upload.ardrive.dev"),
        useSharedCredits := "TURBO_USE_SHARED_CREDITS" in env
          && (env["TURBO_USE_SHARED_CREDITS"] == "true" || env["TURBO_USE_SHARED_CREDITS"] == "1"),
        sharedCreditsPaidBy := SharedCreditsPaidBy(env),
        appName := EnvOr(env, "APP_NAME", "RemoteAgentDeploy"),
        arweaveGateway := EnvOr(env, "ARWEAVE_GATEWAY", "https://arweave.net"),
        port := TruthyInt(EnvValue(env, "PORT")).GetOr(3000),
        discordWebhookUrl := EnvValue(env, "DISCORD_WEBHOOK_URL")))
  }

  // ---------- Errors ----------

  /** The failure record `handleError` returns. */
  datatype ErrorReport = ErrorReport(success: bool, error: string, context: string)

  /** `handleError`: always a failure, carrying the error's message and the context. */
  function HandleError(message: string, context: string): (r: ErrorReport)
    ensures !r.success && r.error == message && r.context == context
  {
    ErrorReport(false, message, context)
  }
}
