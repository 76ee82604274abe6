/**
 * The upload rules: which files the filter lets through, the name a stored
 * file gets, the directory it is stored in (a sub-path of the upload
 * directory chosen by the request, with leading parent references removed
 * and a guard against leaving the upload directory), and the size limit.
 * Paths follow POSIX `path.normalize`, `path.join` and `path.extname`.
 */
module Upload {
  import opened Js
  import opened Errors

  /** `1024 * 1024 * 10`: both the single and the multiple uploader cap each file at 10 MiB. */
  const MaxFileSize: nat := 1024 * 1024 * 10

  /** The multer options of `uploadMiddleware(fieldName, multiple)`: the field, whether many files are taken, and the size cap. */
  datatype Uploader = Uploader(field: string, multiple: bool, fileSize: nat)

  /** `uploadMiddleware(fieldName, multiple)` */
  function UploadMiddleware(fieldName: string, multiple: bool := false): (u: Uploader)
    ensures u.field == fieldName && u.multiple == multiple
    ensures u.fileSize == 10485760
  {
    Uploader(fieldName, multiple, MaxFileSize)
  }

  // -----------------------------------------------------------------------
  // path.extname

  /** The last path component. */
  function Basename(p: string): (b: string)
    ensures '/' !in b && |b| <= |p| && b == p[|p| - |b|..]
  {
    match LastIndex(p, '/')
    case None => p
    case Some(i) => p[i + 1..]
  }

  /**
   * `path.extname(name)`: from the last `.` of the last component to its
   * end; nothing when that component has no `.`, starts with its only
   * run-up `.` (a dot file), or is `..`.
   */
  function Extname(name: string): (ext: string)
    ensures ext == "" || (ext[0] == '.' && '.' !in ext[1..] && '/' !in ext)
    ensures |ext| <= |name| && ext == name[|name| - |ext|..]
  {
    var base := Basename(name);
    match LastIndex(base, '.')
    case None => ""
    case Some(d) =>
      if d == 0 || base == ".." then ""
      else
        assert '.' !in base[d..][1..] by {
          assert forall j | 0 <= j < |base[d..][1..]| :: base[d..][1..][j] == base[d + 1 + j];
        }
        base[d..]
  }

  /** A character found at `d` and nowhere after it is the last one. */
  lemma LastIndexAt(s: string, c: char, d: nat)
    requires d < |s| && s[d] == c && forall j | d < j < |s| :: s[j] != c
    ensures LastIndex(s, c) == Some(d)
  {
  }

  /** In a name without slashes, a dot after the first character with no dot after it starts the extension. */
  lemma ExtnameAt(name: string, d: nat)
    requires '/' !in name && 0 < d < |name| && name[d] == '.' && name != ".."
    requires forall j | d < j < |name| :: name[j] != '.'
    ensures Extname(name) == name[d..]
  {
    LastIndexAt(name, '.', d);
  }

  /** Where the parts of `stem.suffix` sit. */
  lemma DottedLayout(stem: string, suffix: string)
    ensures var name := stem + "." + suffix;
      && |name| == |stem| + 1 + |suffix| && name[|stem|] == '.'
      && (forall j | 0 <= j < |stem| :: name[j] == stem[j])
      && (forall j | |stem| < j < |name| :: name[j] == suffix[j - |stem| - 1])
  {
  }

  /** A name made of a stem, a dot and a suffix without dots or slashes has that suffix as its extension. */
  lemma ExtnameOfDotted(stem: string, suffix: string)
    requires stem != [] && '/' !in stem && '.' !in suffix && '/' !in suffix
    requires stem != "." || suffix != ""
    ensures Extname(stem + "." + suffix) == "." + suffix
  {
    var name := stem + "." + suffix;
    var d := |stem|;
    DottedLayout(stem, suffix);
    assert forall j | 0 <= j < |name| :: name[j] != '/' by {
      forall j | 0 <= j < |name|
        ensures name[j] != '/'
      {
        if j < d {
          assert name[j] in stem;
        } else if j > d {
          assert name[j] in suffix;
        }
      }
    }
    assert forall j | d < j < |name| :: name[j] != '.' by {
      forall j | d < j < |name|
        ensures name[j] != '.'
      {
        assert name[j] in suffix;
      }
    }
    assert name != ".." by {
      if |name| == 2 {
        assert suffix == [] && |stem| == 1 && name[0] == stem[0];
        assert stem == [stem[0]];
      }
    }
    ExtnameAt(name, d);
    assert name[d..] == "." + suffix;
  }

  // -----------------------------------------------------------------------
  // fileFilter

  const AllowedExtensions: seq<string> := ["jpeg", "jpg", "png", "gif"]
  const AllowedMimeTypes: seq<string> := ["image/jpeg", "image/jpg", "image/png", "image/gif"]

  /** An unanchored alternation: one of the patterns occurs somewhere in `s`. */
  predicate ContainsAny(s: string, patterns: seq<string>)
  {
    exists i | 0 <= i < |patterns| :: Contains(s, patterns[i])
  }

  /**
   * `fileFilter`: accepted when the lowercased extension contains one of
   * the image extensions and the MIME type contains one of the image types,
   * both anywhere; otherwise the callback gets an error naming the file.
   */
  function FileFilter(originalname: string, mimetype: string): (r: Result<bool, Error>)
    ensures r.Ok? <==> ContainsAny(ToLower(Extname(originalname)), AllowedExtensions) && ContainsAny(mimetype, AllowedMimeTypes)
    ensures r.Ok? ==> r.value
    ensures r.Err? ==> r.error.code.None? && r.error.status.None?
  {
    if ContainsAny(ToLower(Extname(originalname)), AllowedExtensions) && ContainsAny(mimetype, AllowedMimeTypes) then Ok(true)
    else Err(Error("File type not allowed: " + originalname, None, None))
  }

  /** The rejection names the file it refused. */
  lemma RejectionNamesFile(originalname: string, mimetype: string)
    requires FileFilter(originalname, mimetype).Err?
    ensures Contains(FileFilter(originalname, mimetype).error.message, originalname)
    ensures StartsWith(FileFilter(originalname, mimetype).error.message, "File type not allowed: ")
  {
    var m := FileFilter(originalname, mimetype).error.message;
    var prefix := "File type not allowed: ";
    assert m == prefix + originalname;
    assert m[|prefix|..|prefix| + |originalname|] == originalname;
    assert OccursAt(m, originalname, |prefix|);
    assert m[..|prefix|] == prefix;
  }

  /** An extension holding `png` in any letter case passes the extension test. */
  lemma PngExtensionPasses(ext: string, at: nat)
    requires at + 3 <= |ext| && LowerChar(ext[at]) == 'p' && LowerChar(ext[at + 1]) == 'n' && LowerChar(ext[at + 2]) == 'g'
    ensures ContainsAny(ToLower(ext), AllowedExtensions)
  {
    assert ToLower(ext)[at..at + 3] == AllowedExtensions[2];
    assert OccursAt(ToLower(ext), AllowedExtensions[2], at);
  }

  /** A MIME type holding `image/png` anywhere passes the type test. */
  lemma PngTypePasses(before: string, after: string)
    ensures ContainsAny(before + "image/png" + after, AllowedMimeTypes)
  {
    var m := before + "image/png" + after;
    assert m[|before|..|before| + 9] == AllowedMimeTypes[2];
    assert OccursAt(m, AllowedMimeTypes[2], |before|);
  }

  /** A name whose extension holds `png` in any letter case, with a type holding `image/png`, is accepted. */
  lemma PngAccepted(stem: string, suffix: string, at: nat, before: string, after: string)
    requires stem != [] && '/' !in stem && '.' !in suffix && '/' !in suffix
    requires at + 3 <= |suffix| && LowerChar(suffix[at]) == 'p' && LowerChar(suffix[at + 1]) == 'n' && LowerChar(suffix[at + 2]) == 'g'
    ensures FileFilter(stem + "." + suffix, before + "image/png" + after).Ok?
  {
    ExtnameOfDotted(stem, suffix);
    PngExtensionPasses("." + suffix, at + 1);
    PngTypePasses(before, after);
  }

  /** Only the extension is lowercased: an uppercase `.PNG` passes. */
  lemma UppercaseExtensionAccepted(stem: string)
    requires stem != [] && '/' !in stem
    ensures FileFilter(stem + ".PNG", "image/png").Ok?
  {
    assert stem + ".PNG" == stem + "." + "PNG";
    assert "" + "image/png" + "" == "image/png";
    assert LowerChar('P') == 'p' && LowerChar('N') == 'n' && LowerChar('G') == 'g';
    PngAccepted(stem, "PNG", 0, "", "");
  }

  /** The extension test is unanchored: `.pngx` passes. */
  lemma LongerExtensionAccepted(stem: string)
    requires stem != [] && '/' !in stem
    ensures FileFilter(stem + ".pngx", "image/png").Ok?
  {
    assert stem + ".pngx" == stem + "." + "pngx";
    assert "" + "image/png" + "" == "image/png";
    PngAccepted(stem, "pngx", 0, "", "");
  }

  /** The type test is unanchored: any MIME type that merely contains `image/png` passes. */
  lemma EmbeddedTypeAccepted(stem: string, before: string, after: string)
    requires stem != [] && '/' !in stem
    ensures FileFilter(stem + ".png", before + "image/png" + after).Ok?
  {
    assert stem + ".png" == stem + "." + "png";
    PngAccepted(stem, "png", 0, before, after);
  }

  /** A dot file such as `.png` has no extension, so it is refused whatever its type. */
  lemma DotFileRefused(mimetype: string)
    ensures FileFilter(".png", mimetype).Err?
  {
    assert LastIndex(".png", '/') == None;
    LastIndexAt(".png", '.', 0);
    assert !Contains("", "jpeg") && !Contains("", "jpg") && !Contains("", "png") && !Contains("", "gif");
  }

  // -----------------------------------------------------------------------
  // filename

  /** A byte of `crypto.randomBytes`. */
  type Byte = x: int | 0 <= x < 256

  predicate IsLowerHex(c: char)
  {
    '0' <= c <= '9' || 'a' <= c <= 'f'
  }

  /** The lowercase hexadecimal digit of a value below 16. */
  function HexDigit(n: nat): (c: char)
    requires n < 16
    ensures IsLowerHex(c)
  {
    if n < 10 then ('0' as int + n) as char else ('a' as int + n - 10) as char
  }

  /** The value of one lowercase hexadecimal digit: the inverse of `HexDigit`. */
  function NibbleValue(c: char): (n: nat)
    requires IsLowerHex(c)
    ensures n < 16 && HexDigit(n) == c
  {
    if c <= '9' then c as int - '0' as int else c as int - 'a' as int + 10
  }

  /** `buffer.toString('hex')`: two lowercase digits per byte, high half first. */
  function Hex(bytes: seq<Byte>): (h: string)
    ensures |h| == 2 * |bytes|
    ensures forall i | 0 <= i < |h| :: IsLowerHex(h[i])
  {
    if bytes == [] then ""
    else [HexDigit(bytes[0] / 16), HexDigit(bytes[0] % 16)] + Hex(bytes[1..])
  }

  /** Reading two lowercase digits per byte. */
  function Unhex(h: string): (bytes: seq<Byte>)
    requires |h| % 2 == 0 && forall i | 0 <= i < |h| :: IsLowerHex(h[i])
    ensures |bytes| * 2 == |h|
  {
    if h == "" then [] else [NibbleValue(h[0]) * 16 + NibbleValue(h[1])] + Unhex(h[2..])
  }

  /** The hex text gives its bytes back. */
  lemma {:induction false} UnhexHex(bytes: seq<Byte>)
    ensures Unhex(Hex(bytes)) == bytes
  {
    if bytes != [] {
      var h := Hex(bytes);
      assert h[2..] == Hex(bytes[1..]);
      UnhexHex(bytes[1..]);
      var b := bytes[0];
      assert NibbleValue(HexDigit(b / 16)) == b / 16;
      assert NibbleValue(HexDigit(b % 16)) == b % 16;
      assert bytes == [b] + bytes[1..];
    }
  }

  /** `filename`: the hex of the random bytes followed by the original extension. */
  function StoredName(random: seq<Byte>, originalname: string): string
  {
    Hex(random) + Extname(originalname)
  }

  /**
   * With the 16 random bytes `crypto.randomBytes(16)` draws, a stored name is 32
   * lowercase hex digits and the original extension, which is again the
   * stored name's extension, so the file keeps the type the filter saw.
   */
  lemma StoredNameShape(random: seq<Byte>, originalname: string)
    requires |random| == 16
    ensures var n := StoredName(random, originalname);
      && |n| == 32 + |Extname(originalname)|
      && (forall i | 0 <= i < 32 :: IsLowerHex(n[i]))
      && n[32..] == Extname(originalname)
      && Extname(n) == Extname(originalname)
  {
    var h := Hex(random);
    var ext := Extname(originalname);
    assert forall i | 0 <= i < |h| :: h[i] != '/' && h[i] != '.';
    ExtnameAfterPlain(h, ext);
    var n := h + ext;
    assert forall i | 0 <= i < 32 :: n[i] == h[i];
    assert n[32..] == ext;
  }

  /** A name of at least two characters with no dot or slash, followed by an extension, has that extension. */
  lemma ExtnameAfterPlain(h: string, ext: string)
    requires |h| >= 2 && forall i | 0 <= i < |h| :: h[i] != '/' && h[i] != '.'
    requires ext == "" || (ext[0] == '.' && '.' !in ext[1..] && '/' !in ext)
    ensures Extname(h + ext) == ext
  {
    var n := h + ext;
    assert forall i | 0 <= i < |h| :: n[i] == h[i];
    assert forall i | |h| <= i < |n| :: n[i] == ext[i - |h|];
    if ext == "" {
      assert n == h;
      assert '/' !in n && '.' !in n;
    } else {
      assert forall i | 1 <= i < |ext| :: ext[i] == ext[1..][i - 1];
      assert '/' !in n;
      ExtnameAt(n, |h|);
      assert n[|h|..] == ext;
    }
  }

  /** Different random bytes give different stored names, whatever the original names. */
  lemma StoredNamesDiffer(r1: seq<Byte>, r2: seq<Byte>, name1: string, name2: string)
    requires |r1| == 16 && |r2| == 16 && r1 != r2
    ensures StoredName(r1, name1) != StoredName(r2, name2)
  {
    if StoredName(r1, name1) == StoredName(r2, name2) {
      assert StoredName(r1, name1)[..32] == Hex(r1);
      assert StoredName(r2, name2)[..32] == Hex(r2);
      UnhexHex(r1);
      UnhexHex(r2);
      assert false;
    }
  }

  // -----------------------------------------------------------------------
  // path.normalize and path.join (POSIX)

  /** One segment of `normalizeString`: empty and `.` segments vanish, `..` cancels the last real segment. */
  function Step(stack: seq<string>, segment: string, allowAboveRoot: bool): seq<string>
  {
    if segment == "" || segment == "." then stack
    else if segment == ".." then
      if stack != [] && stack[|stack| - 1] != ".." then stack[..|stack| - 1]
      else if allowAboveRoot then stack + [".."]
      else stack
    else stack + [segment]
  }

  /** `normalizeString`, segment by segment. */
  function Resolve(stack: seq<string>, segments: seq<string>, allowAboveRoot: bool): seq<string>
    decreases |segments|
  {
    if segments == [] then stack
    else Resolve(Step(stack, segments[0], allowAboveRoot), segments[1..], allowAboveRoot)
  }

  /** `path.normalize(p)` */
  function Normalize(p: string): (r: string)
    ensures r != ""
  {
    if p == "" then "."
    else
      var absolute := p[0] == '/';
      var trailing := p[|p| - 1] == '/';
      var body := Join(Resolve([], Split(p, '/'), !absolute), '/');
      if body == "" then (if absolute then "/" else if trailing then "./" else ".")
      else (if absolute then "/" else "") + body + (if trailing then "/" else "")
  }

  /** `path.join(base, p)`: the non-empty arguments joined by `/`, normalised. */
  function PathJoin(base: string, p: string): string
  {
    Normalize(if base == "" then p else if p == "" then base else base + "/" + p)
  }

  /** A segment a normal path is made of: not empty, not `.` or `..`, no slash. */
  predicate PlainSegment(segment: string)
  {
    segment != "" && segment != "." && segment != ".." && '/' !in segment
  }

  predicate Plain(segments: seq<string>)
  {
    forall i | 0 <= i < |segments| :: PlainSegment(segments[i])
  }

  /** `k` parent references. */
  function Ups(k: nat): (u: seq<string>)
    ensures |u| == k && forall i | 0 <= i < k :: u[i] == ".."
  {
    seq(k, _ => "..")
  }

  lemma {:induction false} ResolveConcat(stack: seq<string>, a: seq<string>, b: seq<string>, allowAboveRoot: bool)
    ensures Resolve(stack, a + b, allowAboveRoot) == Resolve(Resolve(stack, a, allowAboveRoot), b, allowAboveRoot)
    decreases |a|
  {
    if a == [] {
      assert a + b == b;
    } else {
      assert (a + b)[0] == a[0] && (a + b)[1..] == a[1..] + b;
      ResolveConcat(Step(stack, a[0], allowAboveRoot), a[1..], b, allowAboveRoot);
    }
  }

  /** Plain segments are pushed as they are. */
  lemma {:induction false} ResolvePlain(stack: seq<string>, segments: seq<string>, allowAboveRoot: bool)
    requires Plain(segments)
    ensures Resolve(stack, segments, allowAboveRoot) == stack + segments
    decreases |segments|
  {
    if segments != [] {
      ResolvePlain(stack + [segments[0]], segments[1..], allowAboveRoot);
      assert stack + [segments[0]] + segments[1..] == stack + segments;
    }
  }

  /** On a relative path, parent references with nothing to cancel are kept. */
  lemma {:induction false} ResolveUps(stack: seq<string>, k: nat)
    requires forall i | 0 <= i < |stack| :: stack[i] == ".."
    ensures Resolve(stack, Ups(k), true) == stack + Ups(k)
    decreases k
  {
    if k > 0 {
      assert Ups(k)[0] == ".." && Ups(k)[1..] == Ups(k - 1);
      ResolveUps(stack + [".."], k - 1);
      assert stack + [".."] + Ups(k - 1) == stack + Ups(k);
    }
  }

  /** The text of a non-empty list of pieces starts with the first piece and ends with the last. */
  lemma {:induction false} JoinEnds(parts: seq<string>)
    requires parts != [] && forall i | 0 <= i < |parts| :: parts[i] != ""
    ensures var j := Join(parts, '/'); j != "" && j[0] == parts[0][0] && j[|j| - 1] == parts[|parts| - 1][|parts[|parts| - 1]| - 1]
    decreases |parts|
  {
    if |parts| > 1 {
      var j := Join(parts, '/');
      assert j == parts[0] + "/" + Join(parts[1..], '/');
      if |parts| == 2 {
        assert Join(parts[1..], '/') == parts[1];
      } else {
        JoinEnds(parts[1..]);
      }
    }
  }

  /** Parent references and then plain segments resolve, above the root allowed, to themselves. */
  lemma ResolveClimb(k: nat, segments: seq<string>)
    requires Plain(segments)
    ensures Resolve([], Ups(k) + segments, true) == Ups(k) + segments
  {
    ResolveConcat([], Ups(k), segments, true);
    ResolveUps([], k);
    assert [] + Ups(k) == Ups(k);
    ResolvePlain(Ups(k), segments, true);
  }

  /** Parent references and plain segments are all non-empty and slash-free. */
  lemma ClimbPieces(k: nat, segments: seq<string>)
    requires Plain(segments)
    ensures var parts := Ups(k) + segments;
      forall i | 0 <= i < |parts| :: parts[i] != "" && '/' !in parts[i]
  {
    var parts := Ups(k) + segments;
    forall i | 0 <= i < |parts|
      ensures parts[i] != "" && '/' !in parts[i]
    {
      if i < k {
        assert parts[i] == "..";
      } else {
        assert parts[i] == segments[i - k];
      }
    }
  }

  /** A relative path that resolves to itself and neither starts nor ends with a slash normalises to itself. */
  lemma NormalizeFixed(p: string)
    requires p != "" && p[0] != '/' && p[|p| - 1] != '/'
    requires Join(Resolve([], Split(p, '/'), true), '/') == p
    ensures Normalize(p) == p
  {
    var absolute, trailing := p[0] == '/', p[|p| - 1] == '/';
    assert !absolute && !trailing;
    var body := Join(Resolve([], Split(p, '/'), !absolute), '/');
    assert body == p;
    assert Normalize(p) == "" + body + "";
    assert "" + p + "" == p;
  }

  /** A relative path of `k` parent references and then plain segments normalises to itself. */
  lemma NormalizeClimb(k: nat, segments: seq<string>)
    requires Plain(segments) && (k > 0 || segments != [])
    ensures var p := Join(Ups(k) + segments, '/'); Normalize(p) == p
  {
    var parts := Ups(k) + segments;
    var p := Join(parts, '/');
    ClimbPieces(k, segments);
    SplitJoin(parts, '/');
    JoinEnds(parts);
    var first, last := parts[0], parts[|parts| - 1];
    assert first[0] in first && last[|last| - 1] in last;
    ResolveClimb(k, segments);
    NormalizeFixed(p);
  }

  /** An absolute path is normalised by resolving its pieces without climbing above the root. */
  lemma NormalizeAbsolute(parts: seq<string>)
    requires parts != [] && (forall i | 0 <= i < |parts| :: '/' !in parts[i]) && parts[|parts| - 1] != ""
    ensures var body := Join(Resolve([], parts, false), '/');
      Normalize("/" + Join(parts, '/')) == if body == "" then "/" else "/" + body
  {
    var j := Join(parts, '/');
    var p := "/" + j;
    assert p == "" + "/" + j;
    SplitConcat("", j, '/');
    SplitJoin(parts, '/');
    assert Split("", '/') == [""];
    ResolveConcat([], [""], parts, false);
    JoinLast(parts);
    assert p[|p| - 1] == j[|j| - 1];
    NormalizeRooted(p);
  }

  /** An absolute path without a trailing slash is `/` and its resolved pieces. */
  lemma NormalizeRooted(p: string)
    requires p != "" && p[0] == '/' && p[|p| - 1] != '/'
    ensures var body := Join(Resolve([], Split(p, '/'), false), '/');
      Normalize(p) == if body == "" then "/" else "/" + body
  {
    var absolute, trailing := p[0] == '/', p[|p| - 1] == '/';
    assert absolute && !trailing;
    var body := Join(Resolve([], Split(p, '/'), !absolute), '/');
    assert Normalize(p) == if body == "" then "/" else "/" + body + "";
    assert "/" + body + "" == "/" + body;
  }

  /** The text of a list of pieces ends with its last piece. */
  lemma {:induction false} JoinLast(parts: seq<string>)
    requires parts != [] && parts[|parts| - 1] != ""
    ensures var j := Join(parts, '/'); j != "" && j[|j| - 1] == parts[|parts| - 1][|parts[|parts| - 1]| - 1]
    decreases |parts|
  {
    if |parts| > 1 {
      JoinLast(parts[1..]);
    }
  }

  /** Plain segments joined onto an absolute path of plain segments are kept as they are. */
  lemma JoinPlainBelow(base: seq<string>, segments: seq<string>)
    requires base != [] && Plain(base) && segments != [] && Plain(segments)
    ensures PathJoin("/" + Join(base, '/'), Join(segments, '/')) == "/" + Join(base + segments, '/')
  {
    var all := base + segments;
    assert Plain(all);
    JoinConcat(base, segments, '/');
    assert "/" + Join(base, '/') + "/" + Join(segments, '/') == "/" + Join(all, '/');
    NormalizeAbsolute(all);
    ResolvePlain([], all, false);
    assert [] + all == all;
    JoinEnds(all);
  }

  /** An absolute path of plain segments followed by `last`, a `.` or a `..`. */
  lemma NormalizeTail(base: seq<string>, last: string)
    requires base != [] && Plain(base) && (last == "." || last == "..")
    ensures PathJoin("/" + Join(base, '/'), last) == Normalize("/" + Join(base + [last], '/'))
    ensures Resolve([], base + [last], false) == Step(base, last, false)
  {
    JoinConcat(base, [last], '/');
    assert "/" + Join(base, '/') + "/" + last == "/" + Join(base + [last], '/');
    ResolveConcat([], base, [last], false);
    ResolvePlain([], base, false);
    assert [] + base == base;
  }

  /** `path.join(dir, '.')` is the directory itself. */
  lemma JoinDot(base: seq<string>)
    requires base != [] && Plain(base)
    ensures PathJoin("/" + Join(base, '/'), ".") == "/" + Join(base, '/')
  {
    NormalizeTail(base, ".");
    assert forall i | 0 <= i < |base + ["."]| :: '/' !in (base + ["."])[i];
    NormalizeAbsolute(base + ["."]);
    JoinEnds(base);
  }

  /** `path.join(dir, '..')` is the parent of the directory, shorter than it. */
  lemma JoinParent(base: seq<string>)
    requires base != [] && Plain(base)
    ensures var parent := PathJoin("/" + Join(base, '/'), "..");
      parent == (if |base| == 1 then "/" else "/" + Join(base[..|base| - 1], '/'))
      && |parent| < |"/" + Join(base, '/')|
  {
    var n := |base|;
    var up := base + [".."];
    NormalizeTail(base, "..");
    assert Step(base, "..", false) == base[..n - 1];
    assert forall i | 0 <= i < |up| :: '/' !in up[i];
    NormalizeAbsolute(up);
    JoinEnds(base);
    if n > 1 {
      ParentShorter(base);
    }
  }

  /** Dropping the last segment shortens the text. */
  lemma ParentShorter(base: seq<string>)
    requires |base| > 1 && Plain(base)
    ensures Join(base[..|base| - 1], '/') != "" && |Join(base[..|base| - 1], '/')| < |Join(base, '/')|
  {
    var n := |base|;
    JoinEnds(base[..n - 1]);
    JoinConcat(base[..n - 1], [base[n - 1]], '/');
    assert base[..n - 1] + [base[n - 1]] == base;
  }

  // -----------------------------------------------------------------------
  // destination

  /** `.replace(/^(\.\.[\/\\])+/, '')`: the leading run of `../` and `..\` removed. */
  function StripParents(p: string): (r: string)
    ensures |r| <= |p| && r == p[|p| - |r|..]
    ensures !StartsWith(r, "../") && !StartsWith(r, "..\\")
    decreases |p|
  {
    if |p| >= 3 && p[0] == '.' && p[1] == '.' && (p[2] == '/' || p[2] == '\\') then StripParents(p[3..]) else p
  }

  /** What the strip removes is a whole number of `../` and `..\` references. */
  lemma {:induction false} StripRemovesParents(p: string)
    ensures ParentRun(p[..|p| - |StripParents(p)|])
    decreases |p|
  {
    var r := StripParents(p);
    if |p| >= 3 && p[0] == '.' && p[1] == '.' && (p[2] == '/' || p[2] == '\\') {
      StripRemovesParents(p[3..]);
      ParentRunShift(p, |p| - 3 - |r|);
    } else {
      assert p[..|p| - |r|] == [];
    }
  }

  /** `s` is a whole number of `../` and `..\` references. */
  predicate ParentRun(s: string)
  {
    |s| % 3 == 0 && forall i | 0 <= i < |s| :: if i % 3 == 2 then s[i] == '/' || s[i] == '\\' else s[i] == '.'
  }

  /** A run of parent references after a leading `../` or `..\` is a longer run. */
  lemma ParentRunShift(p: string, n: nat)
    requires |p| >= 3 + n && p[0] == '.' && p[1] == '.' && (p[2] == '/' || p[2] == '\\')
    requires ParentRun(p[3..][..n])
    ensures ParentRun(p[..n + 3])
  {
    var s, t := p[..n + 3], p[3..][..n];
    forall i | 3 <= i < n + 3
      ensures if i % 3 == 2 then s[i] == '/' || s[i] == '\\' else s[i] == '.'
    {
      assert s[i] == t[i - 3];
      assert i % 3 == (i - 3) % 3;
    }
  }

  /** One leading `../` goes. */
  lemma StripOne(r: string)
    ensures StripParents(".." + "/" + r) == StripParents(r)
  {
    assert (".." + "/" + r)[3..] == r;
  }

  /** The leading parent references of a relative path are exactly what the strip removes. */
  lemma {:induction false} StripUps(k: nat, segments: seq<string>)
    requires segments != [] && Plain(segments) && segments[0][0] != '.'
    ensures StripParents(Join(Ups(k) + segments, '/')) == Join(segments, '/')
    decreases k
  {
    if k == 0 {
      assert Ups(0) + segments == segments;
      JoinEnds(segments);
    } else {
      assert Ups(k) + segments == [".."] + (Ups(k - 1) + segments);
      JoinConcat([".."], Ups(k - 1) + segments, '/');
      StripOne(Join(Ups(k - 1) + segments, '/'));
      StripUps(k - 1, segments);
    }
  }

  /** A run of parent references strips down to its last one. */
  lemma {:induction false} StripClimb(k: nat)
    ensures StripParents(Join(Ups(k + 1), '/')) == ".."
    decreases k
  {
    if k > 0 {
      assert Ups(k + 1) == [".."] + Ups(k);
      JoinConcat([".."], Ups(k), '/');
      StripOne(Join(Ups(k), '/'));
      StripClimb(k - 1);
    }
  }

  /**
   * `storage.destination`: the body's `path` (or `''`), normalised, stripped
   * of leading parent references and joined onto the upload directory;
   * refused with `Invalid path.` when the result does not start with the
   * upload directory. A `path` that is truthy but not a string makes
   * `path.normalize` throw.
   */
  function Destination(body: Option<Props>, uploadDir: string): (r: Result<string, Error>)
    ensures r.Ok? ==> StartsWith(r.value, uploadDir)
    ensures r.Err? && r.error.message != "Invalid path." ==>
      body.Some? && Truthy(Get(body.value, "path")) && !Get(body.value, "path").Str?
  {
    var userPath := if body.None? then Str("") else Or(Get(body.value, "path"), Str(""));
    if !userPath.Str? then Err(Error("The \"path\" argument must be of type string", Some("ERR_INVALID_ARG_TYPE"), None))
    else
      var target := PathJoin(uploadDir, StripParents(Normalize(userPath.s)));
      if !StartsWith(target, uploadDir) then Err(Error("Invalid path.", None, None))
      else Ok(target)
  }

  /**
   * For an upload directory made of plain segments (what `path.resolve`
   * yields below the root), with no body or no `path` the file goes into
   * the upload directory itself.
   */
  lemma DestinationDefault(base: seq<string>)
    requires base != [] && Plain(base)
    ensures var dir := "/" + Join(base, '/');
      Destination(None, dir) == Ok(dir) && Destination(Some(map[]), dir) == Ok(dir)
  {
    JoinDot(base);
    assert StripParents(".") == ".";
  }

  /** A directory starts every path below it. */
  lemma BelowStartsWith(dir: string, name: string)
    ensures StartsWith(dir + "/" + name, dir)
  {
    assert (dir + "/" + name)[..|dir|] == dir;
  }

  /** Plain segments joined onto the upload directory pass the guard. */
  lemma JoinBelowAccepted(base: seq<string>, segments: seq<string>)
    requires base != [] && Plain(base) && segments != [] && Plain(segments)
    ensures var dir := "/" + Join(base, '/');
      && PathJoin(dir, Join(segments, '/')) == dir + "/" + Join(segments, '/')
      && StartsWith(PathJoin(dir, Join(segments, '/')), dir)
  {
    var dir := "/" + Join(base, '/');
    var q := Join(segments, '/');
    JoinPlainBelow(base, segments);
    JoinConcat(base, segments, '/');
    assert "/" + Join(base + segments, '/') == dir + "/" + q;
    BelowStartsWith(dir, q);
  }

  /** A non-empty string `path` is normalised, stripped and joined; the guard then decides. */
  lemma DestinationOfPath(dir: string, p: string, stripped: string)
    requires p != "" && StripParents(Normalize(p)) == stripped
    ensures var target := PathJoin(dir, stripped);
      Destination(Some(map["path" := Str(p)]), dir) ==
        if StartsWith(target, dir) then Ok(target) else Err(Error("Invalid path.", None, None))
  {
    assert Or(Get(map["path" := Str(p)], "path"), Str("")) == Str(p);
  }

  /**
   * A relative path of plain segments, behind any number of `../`, lands
   * below the upload directory with the `../` dropped.
   */
  lemma DestinationBelowUploadDir(base: seq<string>, k: nat, segments: seq<string>)
    requires base != [] && Plain(base)
    requires segments != [] && Plain(segments) && segments[0][0] != '.'
    ensures var dir := "/" + Join(base, '/');
      Destination(Some(map["path" := Str(Join(Ups(k) + segments, '/'))]), dir) == Ok(dir + "/" + Join(segments, '/'))
  {
    var dir := "/" + Join(base, '/');
    var p := Join(Ups(k) + segments, '/');
    var q := Join(segments, '/');
    assert p != "" by {
      var parts := Ups(k) + segments;
      assert forall i | 0 <= i < |parts| :: parts[i] != "";
      JoinEnds(parts);
    }
    NormalizeClimb(k, segments);
    StripUps(k, segments);
    JoinBelowAccepted(base, segments);
    DestinationOfPath(dir, p, q);
  }

  /**
   * A path that climbs one level more than the strip removes (`..`,
   * `../..`, ...) is the one the guard refuses: joined onto the upload
   * directory it names the parent.
   */
  lemma DestinationRefusesParent(base: seq<string>, k: nat)
    requires base != [] && Plain(base)
    ensures var dir := "/" + Join(base, '/');
      Destination(Some(map["path" := Str(Join(Ups(k + 1), '/'))]), dir) == Err(Error("Invalid path.", None, None))
  {
    var dir := "/" + Join(base, '/');
    var p := Join(Ups(k + 1), '/');
    JoinEnds(Ups(k + 1));
    NormalizeClimb(k + 1, []);
    assert Ups(k + 1) + [] == Ups(k + 1);
    StripClimb(k);
    DestinationOfPath(dir, p, "..");
    JoinParent(base);
  }
}
