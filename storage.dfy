/**
 * The deterministic half of `StorageService`: upload validation, the storage
 * path an upload is given, the size re-check and metadata of `upload_file`,
 * the listing format of `list_files` and the path split and lookup of
 * `get_file_info`.
 *
 * The Supabase storage bucket is a collaborator: what it lists, and whether
 * an upload to it failed, are parameters, and so are the clock reading and
 * the UUID that name an upload.
 */
module Storage {
  import opened Wrappers
  import opened Text
  import opened PyValues

  /** `settings.MAX_FILE_SIZE`, 25 MiB. */
  const MaxFileSize: nat := 26214400

  /** `settings.ALLOWED_FILE_TYPES`. */
  const AllowedFileTypes: seq<string> := ["application/pdf"]

  // ----- validation -----

  /** The parts of a FastAPI `UploadFile` the service looks at; `size` is `None` when the client sent none. */
  datatype UploadFile = UploadFile(filename: Option<string>, contentType: Option<string>, size: Option<int>)

  /** `f"{n / 1024 / 1024:.1f}"` for a whole number of mebibytes. */
  function MegabytesText(n: nat): string
    requires n % 1048576 == 0
  {
    NatToString(n / 1048576) + ".0"
  }

  function TooLarge(): HttpError {
    HttpError(413, "File too large. Maximum size is " + MegabytesText(MaxFileSize) + "MB")
  }

  function TypeNotAllowed(): HttpError {
    HttpError(400, "File type not allowed. Allowed types: " + Join(", ", AllowedFileTypes))
  }

  function FilenameRequired(): HttpError {
    HttpError(400, "Filename is required")
  }

  /** An upload whose declared size exceeds the limit. */
  predicate DeclaredTooLarge(f: UploadFile) {
    f.size.Some? && f.size.value > MaxFileSize
  }

  predicate TypeAllowed(f: UploadFile) {
    f.contentType.Some? && f.contentType.value in AllowedFileTypes
  }

  predicate HasFilename(f: UploadFile) {
    f.filename.Some? && f.filename.value != ""
  }

  /** `_validate_file`: the error it raises, or `None` when the upload passes. */
  function ValidateFile(f: UploadFile): Option<HttpError> {
    if f.size.Some? && f.size.value != 0 && f.size.value > MaxFileSize then Some(TooLarge())
    else if f.contentType.None? || f.contentType.value !in AllowedFileTypes then Some(TypeNotAllowed())
    else if f.filename.None? || f.filename.value == "" then Some(FilenameRequired())
    else None
  }

  /**
   * The size is checked first, then the content type, then the filename; an
   * upload passes exactly when none of the three fails.
   */
  lemma ValidationOrder(f: UploadFile)
    ensures DeclaredTooLarge(f) ==> ValidateFile(f) == Some(TooLarge())
    ensures !DeclaredTooLarge(f) && !TypeAllowed(f) ==> ValidateFile(f) == Some(TypeNotAllowed())
    ensures !DeclaredTooLarge(f) && TypeAllowed(f) && !HasFilename(f) ==> ValidateFile(f) == Some(FilenameRequired())
    ensures ValidateFile(f).None? <==> !DeclaredTooLarge(f) && TypeAllowed(f) && HasFilename(f)
  {
  }

  /** The limit is a whole 25 MiB, so the messages quote "25.0MB". */
  lemma TooLargeQuotesLimit()
    ensures MegabytesText(MaxFileSize) == "25.0"
  {
    assert MaxFileSize / 1048576 == 25;
    assert NatToString(25) == NatToString(2) + [DigitChar(5)];
  }

  // ----- pathlib -----

  /** The last of `parts` that is neither empty nor ".", or "" when there is none. */
  function LastName(parts: seq<string>): (r: string)
    ensures r == "" || r in parts
  {
    if parts == [] then ""
    else
      var last := parts[|parts| - 1];
      if last == "" || last == "." then LastName(parts[..|parts| - 1]) else last
  }

  /** `PurePosixPath(p).name`. */
  function Name(p: string): (r: string)
    ensures '/' !in r
  {
    var r := LastName(Split(p, '/'));
    assert r != "" ==> exists k :: 0 <= k < |Split(p, '/')| && Split(p, '/')[k] == r;
    r
  }

  /** `s.rfind(c)`: the last index of `c` in `s[..n]`, or -1. */
  function RFind(s: string, c: char, n: nat): (i: int)
    requires n <= |s|
    ensures -1 <= i < n
    ensures i >= 0 ==> s[i] == c
    ensures forall j :: i < j < n ==> s[j] != c
  {
    if n == 0 then -1 else if s[n - 1] == c then n - 1 else RFind(s, c, n - 1)
  }

  /** The index of the dot that starts a suffix: not the first character and not the last. */
  function SuffixDot(name: string): (i: int)
  {
    var i := RFind(name, '.', |name|);
    if 0 < i < |name| - 1 then i else -1
  }

  /** `PurePosixPath(p).suffix`. */
  function Suffix(p: string): string {
    var name := Name(p);
    var i := SuffixDot(name);
    if i > 0 then name[i..] else ""
  }

  /** `PurePosixPath(p).stem`. */
  function Stem(p: string): string {
    var name := Name(p);
    var i := SuffixDot(name);
    if i > 0 then name[..i] else name
  }

  /**
   * The stem and the suffix make up the name; a suffix is empty or a dot
   * followed by at least one character that is not a dot, and a non-empty
   * suffix leaves a non-empty stem.
   */
  lemma {:induction false} StemAndSuffix(p: string)
    ensures Stem(p) + Suffix(p) == Name(p)
    ensures Suffix(p) == "" || (|Suffix(p)| >= 2 && Suffix(p)[0] == '.' && '.' !in Suffix(p)[1..])
    ensures Suffix(p) != "" ==> Stem(p) != ""
  {
    var name := Name(p);
    var i := SuffixDot(name);
    if i > 0 {
      assert name[..i] + name[i..] == name;
      var sfx := name[i..];
      forall j | 0 <= j < |sfx| - 1
        ensures sfx[1..][j] != '.'
      {
        assert sfx[1..][j] == name[i + 1 + j];
      }
    }
  }

  // ----- storage path -----

  /** `s.replace(" ", "_")`. */
  function Underscored(s: string): (r: string)
    ensures |r| == |s|
    ensures forall k :: 0 <= k < |s| ==> r[k] == (if s[k] == ' ' then '_' else s[k])
  {
    if s == [] then [] else Underscored(s[..|s| - 1]) + [if s[|s| - 1] == ' ' then '_' else s[|s| - 1]]
  }

  /** `Path(original).stem.replace(" ", "_")[:50]`. */
  function SafeStem(original: string): string {
    Take(Underscored(Stem(original)), 50)
  }

  /**
   * The file name part of `_generate_storage_path`; `timestamp` is the
   * `%Y%m%d_%H%M%S` rendering of the clock and `uid` the text of a fresh UUID.
   */
  function StorageFilename(original: string, timestamp: string, uid: string): string {
    timestamp + "_" + Take(uid, 8) + "_" + SafeStem(original) + Suffix(original)
  }

  /** `_generate_storage_path`. */
  function StoragePath(original: string, timestamp: string, uid: string): string {
    "documents/" + StorageFilename(original, timestamp, uid)
  }

  /** The safe stem has no spaces and at most fifty characters. */
  lemma {:induction false} SafeStemClean(original: string)
    ensures ' ' !in SafeStem(original) && |SafeStem(original)| <= 50
  {
    var u := Underscored(Stem(original));
    var r := SafeStem(original);
    forall k | 0 <= k < |r|
      ensures r[k] != ' '
    {
      assert r[k] == u[k];
    }
  }

  /**
   * A storage path is "documents/" followed by one segment; the segment ends
   * with the original suffix (a name neither clock nor UUID text can contain
   * a slash in).
   */
  lemma {:induction false} StoragePathSegments(original: string, timestamp: string, uid: string)
    requires '/' !in timestamp && '/' !in uid
    ensures Split(StoragePath(original, timestamp, uid), '/') == ["documents", StorageFilename(original, timestamp, uid)]
    ensures EndsWith(StoragePath(original, timestamp, uid), Suffix(original))
  {
    StorageFilenameSlashFree(original, timestamp, uid);
    SplitUnderDocuments(StorageFilename(original, timestamp, uid));
    var sfx := Suffix(original);
    EndsWithSuffix(timestamp + "_" + Take(uid, 8) + "_" + SafeStem(original), sfx);
    EndsWithExtend("documents/", StorageFilename(original, timestamp, uid), sfx);
  }

  lemma {:induction false} EndsWithExtend(a: string, z: string, b: string)
    requires EndsWith(z, b)
    ensures EndsWith(a + z, b)
  {
    assert (a + z)[|a + z| - |b|..] == z[|z| - |b|..];
  }

  lemma {:induction false} SplitUnderDocuments(name: string)
    requires '/' !in name
    ensures Split("documents/" + name, '/') == ["documents", name]
  {
    SplitAtFirst("documents", '/', name);
    SplitNoSeparator(name, '/');
    assert "documents/" + name == "documents" + ['/'] + name;
  }

  lemma {:induction false} StorageFilenameSlashFree(original: string, timestamp: string, uid: string)
    requires '/' !in timestamp && '/' !in uid
    ensures '/' !in StorageFilename(original, timestamp, uid)
  {
    var uid8 := Take(uid, 8);
    NoSlashInStem(original);
    assert '/' !in uid8 by {
      forall k | 0 <= k < |uid8| ensures uid8[k] != '/' { assert uid8[k] == uid[k]; }
    }
    SlashFree5(timestamp, "_", uid8, "_", SafeStem(original) + Suffix(original));
    assert StorageFilename(original, timestamp, uid) == timestamp + "_" + uid8 + "_" + (SafeStem(original) + Suffix(original));
  }

  lemma {:induction false} EndsWithSuffix(a: string, b: string)
    ensures EndsWith(a + b, b)
  {
    assert (a + b)[|a|..] == b;
  }

  /** Neither the safe stem nor the suffix contains a slash. */
  lemma {:induction false} NoSlashInStem(original: string)
    ensures '/' !in SafeStem(original) + Suffix(original)
  {
    var name := Name(original);
    var i := SuffixDot(name);
    var stem := Stem(original);
    var u := Underscored(stem);
    var safe := SafeStem(original);
    var sfx := Suffix(original);
    assert '/' !in stem by {
      if i > 0 {
        forall k | 0 <= k < |stem| ensures stem[k] != '/' { assert stem[k] == name[k]; }
      }
    }
    forall k | 0 <= k < |safe| ensures safe[k] != '/' { assert safe[k] == u[k]; }
    assert '/' !in sfx by {
      if i > 0 {
        forall k | 0 <= k < |sfx| ensures sfx[k] != '/' { assert sfx[k] == name[i + k]; }
      }
    }
    var r := safe + sfx;
    forall k | 0 <= k < |r| ensures r[k] != '/' {
      if k < |safe| { assert r[k] == safe[k]; } else { assert r[k] == sfx[k - |safe|]; }
    }
  }

  lemma {:induction false} SlashFree5(a: string, b: string, c: string, d: string, e: string)
    requires '/' !in a && '/' !in b && '/' !in c && '/' !in d && '/' !in e
    ensures '/' !in a + b + c + d + e
  {
    var r := a + b + c + d + e;
    forall k | 0 <= k < |r| ensures r[k] != '/' {
      if k < |a| { assert r[k] == a[k]; }
      else if k < |a + b| { assert r[k] == b[k - |a|]; }
      else if k < |a + b + c| { assert r[k] == c[k - |a + b|]; }
      else if k < |a + b + c + d| { assert r[k] == d[k - |a + b + c|]; }
      else { assert r[k] == e[k - |a + b + c + d|]; }
    }
  }

  // ----- upload_file -----

  /** The metadata dict `upload_file` returns. */
  datatype StoredFile = StoredFile(
    id: string,
    filename: string,
    originalName: string,
    storagePath: string,
    publicUrl: Option<string>,
    mimeType: string,
    size: nat,
    uploadedAt: string,
    status: string)

  function UploadFailed(message: string): HttpError {
    HttpError(500, "File upload failed: " + message)
  }

  /**
   * What `upload_file` returns or raises. `actualSize` is the length of the
   * bytes read; `failure` is the text of the exception the bucket calls
   * raised, if any; `publicUrl`, `id` and `uploadedAt` are what the bucket,
   * the UUID generator and the clock gave.
   */
  function Uploaded(f: UploadFile, actualSize: nat, timestamp: string, uid: string, failure: Option<string>,
                    publicUrl: Option<string>, id: string, uploadedAt: string): Result<StoredFile, HttpError>
  {
    var invalid := ValidateFile(f);
    if invalid.Some? then Err(invalid.value)
    else if actualSize > MaxFileSize then Err(TooLarge())
    else
      var path := StoragePath(f.filename.value, timestamp, uid);
      if failure.Some? then Err(UploadFailed(failure.value))
      else
        var segments := Split(path, '/');
        Ok(StoredFile(id, segments[|segments| - 1], f.filename.value, path, publicUrl, f.contentType.value,
                      actualSize, uploadedAt, "ready"))
  }

  /**
   * An upload fails with the validation error, else with a 413 when the bytes
   * read exceed the limit (whatever size was declared), else with a 500 when
   * the bucket failed; otherwise it succeeds.
   */
  lemma UploadRejects(f: UploadFile, actualSize: nat, timestamp: string, uid: string, failure: Option<string>,
                      publicUrl: Option<string>, id: string, uploadedAt: string)
    ensures var r := Uploaded(f, actualSize, timestamp, uid, failure, publicUrl, id, uploadedAt);
            (ValidateFile(f).Some? ==> r == Err(ValidateFile(f).value)) &&
            (ValidateFile(f).None? && actualSize > MaxFileSize ==> r == Err(TooLarge())) &&
            (ValidateFile(f).None? && actualSize <= MaxFileSize && failure.Some? ==> r == Err(UploadFailed(failure.value))) &&
            (r.Ok? <==> ValidateFile(f).None? && actualSize <= MaxFileSize && failure.None?)
  {
  }

  /**
   * A stored upload is a PDF of at most `MAX_FILE_SIZE` bytes, keeps its
   * original name, and its `filename` is the last segment of its storage
   * path: the generated storage file name.
   */
  lemma {:induction false} UploadMetadata(f: UploadFile, actualSize: nat, timestamp: string, uid: string, failure: Option<string>,
                                          publicUrl: Option<string>, id: string, uploadedAt: string)
    requires '/' !in timestamp && '/' !in uid
    requires Uploaded(f, actualSize, timestamp, uid, failure, publicUrl, id, uploadedAt).Ok?
    ensures var m := Uploaded(f, actualSize, timestamp, uid, failure, publicUrl, id, uploadedAt).value;
            HasFilename(f) && m.originalName == f.filename.value &&
            m.storagePath == StoragePath(f.filename.value, timestamp, uid) &&
            m.filename == StorageFilename(f.filename.value, timestamp, uid) &&
            m.mimeType in AllowedFileTypes && m.size == actualSize && m.size <= MaxFileSize && m.status == "ready"
  {
    ValidationOrder(f);
    StoragePathSegments(f.filename.value, timestamp, uid);
  }

  // ----- list_files -----

  /** One entry of `list_files`'s result. */
  datatype ListedFile = ListedFile(name: PyValue, size: PyValue, lastModified: PyValue, contentType: PyValue, storagePath: PyValue)

  /** `f"{prefix}/{name}" if prefix else name`. */
  function ListedPath(prefix: string, name: PyValue, repr: PyValue -> string): PyValue {
    if prefix != "" then PyStr(prefix + "/" + Show(name, repr)) else name
  }

  /** `type(v).__name__`. */
  function TypeName(v: PyValue): string {
    match v
    case PyNone => "NoneType"
    case PyBool(_) => "bool"
    case PyInt(_) => "int"
    case PyStr(_) => "str"
    case PyList(_) => "list"
    case PyDict(_) => "dict"
  }

  /** The `AttributeError` text of calling `.get` on a value that is not a dict. */
  function NoGet(v: PyValue): string {
    "'" + TypeName(v) + "' object has no attribute 'get'"
  }

  /**
   * The entry built from one listed item: `None` for an item that is not a
   * dict, an error text when its `metadata` is present but not a dict.
   */
  function ListEntry(item: PyValue, prefix: string, repr: PyValue -> string): Result<Option<ListedFile>, string> {
    if !item.PyDict? then Ok(None)
    else
      var d := item.entries;
      var meta := GetOrDefault(d, "metadata", PyDict([]));
      if !meta.PyDict? then Err(NoGet(meta))
      else
        var name := GetOrDefault(d, "name", PyNone);
        Ok(Some(ListedFile(name, GetOrDefault(meta.entries, "size", PyInt(0)), GetOrDefault(d, "updated_at", PyNone),
                           GetOrDefault(meta.entries, "mimetype", PyNone), ListedPath(prefix, name, repr))))
  }

  /** The loop of `list_files` over the bucket's items, stopping at the first error. */
  function ListEntries(items: seq<PyValue>, prefix: string, repr: PyValue -> string): Result<seq<ListedFile>, string>
  {
    if items == [] then Ok([])
    else
      match ListEntry(items[0], prefix, repr)
      case Err(e) => Err(e)
      case Ok(entry) =>
        match ListEntries(items[1..], prefix, repr)
        case Err(e) => Err(e)
        case Ok(rest) => Ok((if entry.Some? then [entry.value] else []) + rest)
  }

  function ListFailed(message: string): HttpError {
    HttpError(500, "Failed to list files: " + message)
  }

  /** `list_files(prefix)`; `listed` is what the bucket listed under the prefix. */
  function ListFiles(prefix: string, listed: Outcome<seq<PyValue>>, repr: PyValue -> string): Result<seq<ListedFile>, HttpError> {
    match listed
    case Raised(m) => Err(ListFailed(m))
    case Returned(items) =>
      match ListEntries(items, prefix, repr)
      case Err(m) => Err(ListFailed(m))
      case Ok(files) => Ok(files)
  }

  /** The number of dict items, the ones `list_files` keeps. */
  function DictCount(items: seq<PyValue>): nat {
    if items == [] then 0 else (if items[0].PyDict? then 1 else 0) + DictCount(items[1..])
  }

  /**
   * A listing keeps one entry per dict item, and each entry's storage path is
   * `prefix + "/" + name` when there is a prefix and the bare name otherwise.
   */
  lemma {:induction false} ListEntriesShape(items: seq<PyValue>, prefix: string, repr: PyValue -> string)
    requires ListEntries(items, prefix, repr).Ok?
    ensures var files := ListEntries(items, prefix, repr).value;
            |files| == DictCount(items) &&
            forall k :: 0 <= k < |files| ==> files[k].storagePath == ListedPath(prefix, files[k].name, repr)
    decreases |items|
  {
    if items != [] {
      ListEntriesShape(items[1..], prefix, repr);
    }
  }

  /** A returned listing fails exactly when some dict item carries a non-dict `metadata`. */
  lemma {:induction false} ListEntriesFail(items: seq<PyValue>, prefix: string, repr: PyValue -> string)
    ensures ListEntries(items, prefix, repr).Err? <==> exists k :: 0 <= k < |items| && ListEntry(items[k], prefix, repr).Err?
    ensures ListFiles(prefix, Returned(items), repr).Err? <==> exists k :: 0 <= k < |items| && ListEntry(items[k], prefix, repr).Err?
    decreases |items|
  {
    if items != [] {
      ListEntriesFail(items[1..], prefix, repr);
      if ListEntries(items[1..], prefix, repr).Err? {
        var k :| 0 <= k < |items[1..]| && ListEntry(items[1..][k], prefix, repr).Err?;
        assert items[k + 1] == items[1..][k];
      }
      if exists k :: 0 <= k < |items| && ListEntry(items[k], prefix, repr).Err? {
        var k :| 0 <= k < |items| && ListEntry(items[k], prefix, repr).Err?;
        if k > 0 {
          assert items[1..][k - 1] == items[k];
        }
      }
    }
  }

  // ----- get_file_info -----

  /** The directory and file name `get_file_info` splits a storage path into. */
  function SplitStoragePath(p: string): (string, string) {
    var parts := Split(p, '/');
    if |parts| > 1 then (Join("/", parts[..|parts| - 1]), parts[|parts| - 1]) else ("", p)
  }

  /**
   * The file name is the text after the last slash and the directory the text
   * before it, so the two rejoin to the path; a path without a slash is all
   * file name, with an empty directory.
   */
  lemma {:induction false} SplitStoragePathRejoins(p: string)
    ensures var (directory, filename) := SplitStoragePath(p);
            '/' !in filename &&
            ('/' in p ==> directory + "/" + filename == p) &&
            ('/' !in p ==> directory == "" && filename == p)
  {
    var parts := Split(p, '/');
    if |parts| > 1 {
      JoinSnoc("/", parts[..|parts| - 1], parts[|parts| - 1]);
      assert parts[..|parts| - 1] + [parts[|parts| - 1]] == parts;
      assert Join("/", parts) == Join(['/'], parts);
      assert '/' in p by { JoinHasSeparator(parts); }
    } else {
      assert p == parts[0];
    }
  }

  lemma {:induction false} JoinSnoc(sep: string, parts: seq<string>, x: string)
    requires |parts| >= 1
    ensures Join(sep, parts + [x]) == Join(sep, parts) + sep + x
    decreases |parts|
  {
    if |parts| > 1 {
      JoinSnoc(sep, parts[1..], x);
      assert (parts + [x])[1..] == parts[1..] + [x];
    } else {
      assert (parts + [x])[1..] == [x];
    }
  }

  lemma {:induction false} JoinHasSeparator(parts: seq<string>)
    requires |parts| > 1
    ensures '/' in Join(['/'], parts)
  {
    var rest := Join(['/'], parts[1..]);
    assert Join(['/'], parts) == parts[0] + ['/'] + rest;
    assert Join(['/'], parts)[|parts[0]|] == '/';
  }

  /** The first listed entry whose name is `filename`. */
  function FindNamed(files: seq<ListedFile>, filename: string): (r: Option<ListedFile>)
  {
    if files == [] then None
    else if files[0].name == PyStr(filename) then Some(files[0])
    else FindNamed(files[1..], filename)
  }

  /** The entry found is the first listed with that name, and none is found only when no entry has it. */
  lemma {:induction false} FindNamedFirst(files: seq<ListedFile>, filename: string)
    ensures FindNamed(files, filename).None? <==> forall k :: 0 <= k < |files| ==> files[k].name != PyStr(filename)
    ensures FindNamed(files, filename).Some? ==>
              exists k :: 0 <= k < |files| && files[k] == FindNamed(files, filename).value &&
                          files[k].name == PyStr(filename) &&
                          forall j :: 0 <= j < k ==> files[j].name != PyStr(filename)
    decreases |files|
  {
    if files != [] && files[0].name != PyStr(filename) {
      FindNamedFirst(files[1..], filename);
      var r := FindNamed(files, filename);
      if r.Some? {
        var k :| 0 <= k < |files[1..]| && files[1..][k] == r.value && files[1..][k].name == PyStr(filename) &&
                 forall j :: 0 <= j < k ==> files[1..][j].name != PyStr(filename);
        assert files[k + 1] == files[1..][k];
        forall j | 0 <= j < k + 1 ensures files[j].name != PyStr(filename) {
          if j > 0 { assert files[j] == files[1..][j - 1]; }
        }
      } else {
        forall k | 0 <= k < |files| ensures files[k].name != PyStr(filename) {
          if k > 0 { assert files[k] == files[1..][k - 1]; }
        }
      }
    }
  }

  /**
   * `get_file_info(storage_path)`; `listing` gives what the bucket lists
   * under a directory. A failed listing yields `None`, as the handler does.
   */
  function FileInfo(storagePath: string, listing: string -> Outcome<seq<PyValue>>, repr: PyValue -> string): Option<ListedFile> {
    var (directory, filename) := SplitStoragePath(storagePath);
    match ListFiles(directory, listing(directory), repr)
    case Err(_) => None
    case Ok(files) => FindNamed(files, filename)
  }

  /**
   * The info found is an entry of the directory's listing named as the last
   * path segment, with the directory-prefixed storage path.
   */
  lemma {:induction false} FileInfoFound(storagePath: string, listing: string -> Outcome<seq<PyValue>>, repr: PyValue -> string)
    requires FileInfo(storagePath, listing, repr).Some?
    ensures var (directory, filename) := SplitStoragePath(storagePath);
            var info := FileInfo(storagePath, listing, repr).value;
            var files := ListFiles(directory, listing(directory), repr);
            files.Ok? && info in files.value && info.name == PyStr(filename) &&
            info.storagePath == ListedPath(directory, info.name, repr)
  {
    var (directory, filename) := SplitStoragePath(storagePath);
    var files := ListFiles(directory, listing(directory), repr);
    assert files.Ok?;
    var items := listing(directory).result;
    FindNamedFirst(files.value, filename);
    ListEntriesShape(items, directory, repr);
  }
}
