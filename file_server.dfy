/**
 * The file-browser API of server.js: the `/api/files` handler with its
 * 400 / 403 / 404 / 500 checks, `readDirectory` building one description
 * per directory entry and sorting folders first, and the extension tables
 * of `getFileType` and `getFileIcon`.
 *
 * The file system is a set of parameters: `resolve` is `path.resolve`
 * (for the current working directory), `pathExists` is `fs.existsSync`, and
 * `read` gives the entries of a directory or the message of the error that
 * `readdirSync` or `statSync` raised. `localeCompare` is an abstract order
 * `leq` on names (`leq(a, b)` for `a.localeCompare(b) <= 0`).
 */
module FileServer {
  import opened Base
  import opened Text

  // ---------------------------------------------------------------------------
  // path.extname for a directory entry's name

  /** A name as `readdirSync` returns it: a single path component. */
  type EntryName = s: string | '/' !in s

  /** The position of the last '.' in `s`, if any. */
  function LastDot(s: string): (r: Option<nat>)
    ensures r.None? <==> '.' !in s
    ensures r.Some? ==> r.value < |s| && s[r.value] == '.' && '.' !in s[r.value + 1..]
  {
    if s == [] then None
    else if s[|s| - 1] == '.' then Some(|s| - 1)
    else
      var r := LastDot(s[..|s| - 1]);
      assert r.Some? ==> s[r.value + 1..] == s[..|s| - 1][r.value + 1..] + [s[|s| - 1]];
      assert r.None? ==> s == s[..|s| - 1] + [s[|s| - 1]];
      r
  }

  /**
   * `path.extname(name)` for a name without '/': the suffix from the last
   * '.', except that a name whose only dot leads it (".gitignore"), a name
   * without a dot and the name ".." have none.
   */
  function Extname(name: EntryName): (ext: string)
    ensures ext == "" <==> '.' !in name || LastDot(name) == Some(0) || name == ".."
    ensures ext != "" ==> ext[0] == '.' && EndsWith(name, ext) && '.' !in ext[1..] && |ext| < |name|
  {
    match LastDot(name)
    case None => ""
    case Some(k) => if k == 0 || name == ".." then "" else name[k..]
  }

  /** `path.extname(name).toLowerCase().slice(1)`: the key both tables are looked up with. */
  function ExtKey(name: EntryName): string
  {
    var lowered := ToLower(Extname(name));
    if lowered == [] then [] else lowered[1..]
  }

  predicate NoUpper(s: string)
  {
    forall i :: 0 <= i < |s| ==> !('A' <= s[i] <= 'Z')
  }

  /** The last '.' is found where it is. */
  lemma {:induction false} LastDotAt(s: string, k: nat)
    requires k < |s| && s[k] == '.' && '.' !in s[k + 1..]
    ensures LastDot(s) == Some(k)
    decreases |s|
  {
    if k < |s| - 1 {
      assert s[|s| - 1] == s[k + 1..][|s| - k - 2];
      assert s[..|s| - 1][k + 1..] == s[k + 1..][..|s| - k - 2];
      LastDotAt(s[..|s| - 1], k);
    }
  }

  /** Lower-casing leaves a string without upper-case letters as it is. */
  lemma ToLowerKeeps(s: string)
    requires NoUpper(s)
    ensures ToLower(s) == s
  {
  }

  /** The key of a name whose last '.' is at `k`, not at the start. */
  lemma ExtKeyAt(name: EntryName, k: nat)
    requires 0 < k < |name| && name[k] == '.' && '.' !in name[k + 1..] && name != ".."
    ensures ExtKey(name) == ToLower(name[k + 1..])
  {
    LastDotAt(name, k);
    var ext := name[k..];
    assert Extname(name) == ext;
    assert ToLower(ext)[1..] == ToLower(ext[1..]);
    assert ext[1..] == name[k + 1..];
  }

  /** The key of a name made of a stem, a '.' and a lower-case, dot-free `key`. */
  lemma ExtKeyOf(name: EntryName, k: nat, key: string)
    requires 0 < k < |name| && name[k] == '.' && name[k + 1..] == key && name != ".."
    requires '.' !in key && NoUpper(key)
    ensures ExtKey(name) == key
  {
    ExtKeyAt(name, k);
    ToLowerKeeps(key);
  }

  /** The lookup key is lower case and dot-free, and empty exactly when the name has no extension. */
  lemma ExtKeyShape(name: EntryName)
    ensures NoUpper(ExtKey(name))
    ensures '.' !in ExtKey(name)
    ensures ExtKey(name) == "" <==> |Extname(name)| <= 1
  {
    var ext := Extname(name);
    var lowered := ToLower(ext);
    if lowered != [] {
      forall i | 0 <= i < |lowered| - 1
        ensures lowered[1..][i] != '.'
      {
        assert ext[1..][i] == ext[i + 1];
      }
    }
  }

  // ---------------------------------------------------------------------------
  // The extension tables

  /** The `typeMap` of `getFileType`. */
  const TypeMap: map<string, string> := map[
    "html" := "html", "htm" := "html", "css" := "css", "js" := "js", "json" := "json",
    "md" := "md", "txt" := "text", "png" := "image", "jpg" := "image", "jpeg" := "image",
    "gif" := "image", "svg" := "image", "pdf" := "pdf", "zip" := "archive", "rar" := "archive"]

  /** The `iconMap` of `getFileIcon`. */
  const IconMap: map<string, string> := map[
    "html" := "🌐", "htm" := "🌐", "css" := "🎨", "js" := "⚡", "json" := "⚙️",
    "md" := "📝", "txt" := "📄", "png" := "🖼️", "jpg" := "🖼️", "jpeg" := "🖼️",
    "gif" := "🖼️", "svg" := "🖼️", "pdf" := "📄", "zip" := "📦", "rar" := "📦"]

  const DefaultType := "file"
  const FolderType := "folder"
  const DefaultIcon := "📄"
  const FolderIcon := "📁"

  /** Every type `getFileType` can name. */
  const FileTypes: set<string> := {"html", "css", "js", "json", "md", "text", "image", "pdf", "archive", "file"}

  /** Both tables cover the same extensions, and no value is the empty (falsy) string. */
  lemma TablesAgree()
    ensures TypeMap.Keys == IconMap.Keys
    ensures forall k :: k in TypeMap ==> TypeMap[k] != "" && IconMap[k] != ""
  {
  }

  // ---------------------------------------------------------------------------
  // The lookups as written: `table[ext] || default` on a plain object

  /** A JavaScript value a property access on an object literal can yield. */
  datatype JsValue = Str(s: string) | Function(fname: string) | PrototypeObject

  /** The properties every object literal inherits from `Object.prototype`. */
  const Inherited: map<string, JsValue> := map[
    "constructor" := Function("Object"), "__proto__" := PrototypeObject,
    "toString" := Function("toString"), "toLocaleString" := Function("toLocaleString"),
    "valueOf" := Function("valueOf"), "hasOwnProperty" := Function("hasOwnProperty"),
    "isPrototypeOf" := Function("isPrototypeOf"), "propertyIsEnumerable" := Function("propertyIsEnumerable"),
    "__defineGetter__" := Function("__defineGetter__"), "__defineSetter__" := Function("__defineSetter__"),
    "__lookupGetter__" := Function("__lookupGetter__"), "__lookupSetter__" := Function("__lookupSetter__")]

  /** `table[key]`: an own property, else an inherited one, else `undefined` (`None`). */
  function Property(table: map<string, string>, key: string): Option<JsValue>
  {
    if key in table then Some(Str(table[key]))
    else if key in Inherited then Some(Inherited[key])
    else None
  }

  /** `value || fallback`: only `undefined` and the empty string are falsy here. */
  function OrElse(value: Option<JsValue>, fallback: string): JsValue
  {
    match value
    case Some(Str(s)) => if s == "" then Str(fallback) else Str(s)
    case Some(v) => v
    case None => Str(fallback)
  }

  /** `typeMap[ext] || 'file'` as written. */
  function TypeOfKeyAsWritten(key: string): JsValue
  {
    OrElse(Property(TypeMap, key), DefaultType)
  }

  /** `iconMap[ext] || '📄'` as written. */
  function IconOfKeyAsWritten(key: string): JsValue
  {
    OrElse(Property(IconMap, key), DefaultIcon)
  }

  /** `getFileType` as written. */
  function FileTypeAsWritten(name: EntryName): JsValue
  {
    TypeOfKeyAsWritten(ExtKey(name))
  }

  /** `getFileIcon` for a file, as written. */
  function FileIconAsWritten(name: EntryName): JsValue
  {
    IconOfKeyAsWritten(ExtKey(name))
  }

  /**
   * The extension ".constructor" is typed as the `Object` function and
   * ".__proto__" as `Object.prototype`: neither is a type name nor the
   * "file" default, and the same happens to their icons.
   */
  lemma PrototypeKeyEscapesTable()
    ensures TypeOfKeyAsWritten("constructor") == Function("Object")
    ensures IconOfKeyAsWritten("constructor") == Function("Object")
    ensures TypeOfKeyAsWritten("__proto__") == PrototypeObject
    ensures IconOfKeyAsWritten("__proto__") == PrototypeObject
  {
  }

  lemma ConstructorSuffix()
    ensures "setup.constructor"[5] == '.' && "setup.constructor"[6..] == "constructor"
    ensures '/' !in "setup.constructor"
  {
  }

  lemma ConstructorLowerCase()
    ensures NoUpper("constructor") && '.' !in "constructor"
  {
  }

  lemma ConstructorKey()
    ensures ExtKey("setup.constructor") == "constructor"
  {
    ConstructorSuffix();
    ConstructorLowerCase();
    ExtKeyOf("setup.constructor", 5, "constructor");
  }

  /** The file "setup.constructor" is listed with the `Object` function as its type and icon. */
  lemma SetupConstructorMistyped(name: EntryName)
    requires name == "setup.constructor"
    ensures FileTypeAsWritten(name) == Function("Object")
    ensures FileIconAsWritten(name) == Function("Object")
  {
    ConstructorKey();
    PrototypeKeyEscapesTable();
  }

  /** Every inherited name other than two has an upper-case letter. */
  lemma InheritedHaveUpper(key: string)
    requires key in Inherited && key != "constructor" && key != "__proto__"
    ensures !NoUpper(key)
  {
    if key == "toString" || key == "toLocaleString" || key == "isPrototypeOf" {
      assert 'A' <= key[2] <= 'Z';
    } else if key == "valueOf" {
      assert 'A' <= key[5] <= 'Z';
    } else if key == "hasOwnProperty" {
      assert 'A' <= key[3] <= 'Z';
    } else {
      assert 'A' <= key[8] <= 'Z';
    }
  }

  // ---------------------------------------------------------------------------
  // The lookups as intended: own properties only

  /** The table's type for the key, else "file". */
  function TypeOfKey(key: string): string
  {
    if key in TypeMap then TypeMap[key] else DefaultType
  }

  /** The table's icon for the key, else the page icon. */
  function IconOfKey(key: string): string
  {
    if key in IconMap then IconMap[key] else DefaultIcon
  }

  /** `getFileType`. */
  function FileType(name: EntryName): string
  {
    TypeOfKey(ExtKey(name))
  }

  /** `getFileIcon`: the folder icon for a directory, else the icon of the extension. */
  function FileIcon(name: EntryName, isDirectory: bool): string
  {
    if isDirectory then FolderIcon else IconOfKey(ExtKey(name))
  }

  /**
   * Lower-cased keys reach only two inherited names; for every other
   * lower-case key the lookups as written give the table's value or the
   * default, as the own-property lookups do.
   */
  lemma AsWrittenAgreesElsewhere(key: string)
    requires NoUpper(key)
    ensures key in Inherited ==> key == "constructor" || key == "__proto__"
    ensures key != "constructor" && key != "__proto__" ==>
              TypeOfKeyAsWritten(key) == Str(TypeOfKey(key)) && IconOfKeyAsWritten(key) == Str(IconOfKey(key))
  {
    if key in Inherited && key != "constructor" && key != "__proto__" {
      InheritedHaveUpper(key);
    }
  }

  /** For every entry name the lookups as written and as intended differ only on the two prototype keys. */
  lemma FileTypeAsWrittenAgrees(name: EntryName)
    ensures ExtKey(name) != "constructor" && ExtKey(name) != "__proto__" ==>
              FileTypeAsWritten(name) == Str(FileType(name)) && FileIconAsWritten(name) == Str(FileIcon(name, false))
  {
    ExtKeyShape(name);
    AsWrittenAgreesElsewhere(ExtKey(name));
  }

  /** The table names nine types, and "file" is not one of them. */
  lemma TypeMapValues()
    ensures forall k :: k in TypeMap ==> TypeMap[k] in FileTypes && TypeMap[k] != DefaultType
  {
  }

  /**
   * The type is always one of the ten names; it is "file" exactly when the
   * lower-cased extension is not in the table (no extension included), and
   * a file has the page icon whenever its type is "file".
   */
  lemma FileTypeCorrect(name: EntryName)
    ensures FileType(name) in FileTypes
    ensures FileType(name) == DefaultType <==> ExtKey(name) !in TypeMap
    ensures |Extname(name)| <= 1 ==> FileType(name) == DefaultType
    ensures FileType(name) == DefaultType ==> FileIcon(name, false) == DefaultIcon
    ensures FileIcon(name, true) == FolderIcon
  {
    ExtKeyShape(name);
    TypeMapValues();
  }

  /** Extensions that differ only in case get the same type and icon ("a.JPG" and "b.jpg"). */
  lemma FileTypeIgnoresCase(a: EntryName, b: EntryName)
    requires ToLower(Extname(a)) == ToLower(Extname(b))
    ensures FileType(a) == FileType(b) && FileIcon(a, false) == FileIcon(b, false)
  {
  }

  /** A dot file has no extension, so it is a plain file. */
  lemma DotFileIsPlainFile()
    ensures FileType(".gitignore") == DefaultType
  {
    assert '.' !in ".gitignore"[1..];
    LastDotAt(".gitignore", 0);
  }

  lemma ZipSuffix()
    ensures "backup.html.zip"[11] == '.' && "backup.html.zip"[12..] == "zip"
    ensures NoUpper("zip") && '.' !in "zip"
  {
  }

  /** Only the last extension counts. */
  lemma LastExtensionCounts()
    ensures FileType("backup.html.zip") == "archive"
  {
    ZipSuffix();
    ExtKeyOf("backup.html.zip", 11, "zip");
  }

  // ---------------------------------------------------------------------------
  // readDirectory

  /** A directory entry as `readdirSync(…, { withFileTypes: true })` reports it. */
  datatype DirEntry = DirEntry(name: EntryName, isDirectory: bool)

  /** The description sent for an entry (size, modification time and path are not modelled). */
  datatype FileInfo = FileInfo(name: string, kind: string, icon: string, isDirectory: bool)

  function Describe(e: DirEntry): (f: FileInfo)
    ensures f.name == e.name && f.isDirectory == e.isDirectory
    ensures e.isDirectory ==> f.kind == FolderType && f.icon == FolderIcon
    ensures !e.isDirectory ==> f.kind == FileType(e.name) && f.icon == FileIcon(e.name, false)
  {
    FileInfo(e.name, if e.isDirectory then FolderType else FileType(e.name), FileIcon(e.name, e.isDirectory), e.isDirectory)
  }

  /**
   * `localeCompare` is a consistent comparison: any two names are ordered
   * one way or the other, and the order is transitive.
   */
  ghost predicate Total(leq: (string, string) -> bool)
  {
    (forall a, b :: leq(a, b) || leq(b, a)) &&
    (forall a, b, c :: leq(a, b) && leq(b, c) ==> leq(a, c))
  }

  /** The comparator of `files.sort` does not put `a` after `b`. */
  predicate InOrder(a: FileInfo, b: FileInfo, leq: (string, string) -> bool)
  {
    (a.isDirectory && !b.isDirectory) || (a.isDirectory == b.isDirectory && leq(a.name, b.name))
  }

  lemma InOrderTransitive(a: FileInfo, b: FileInfo, c: FileInfo, leq: (string, string) -> bool)
    requires Total(leq)
    requires InOrder(a, b, leq) && InOrder(b, c, leq)
    ensures InOrder(a, c, leq)
  {
  }

  predicate SortedFiles(files: seq<FileInfo>, leq: (string, string) -> bool)
  {
    forall i, j :: 0 <= i < j < |files| ==> InOrder(files[i], files[j], leq)
  }

  /** Put `f` in front of the first description it may precede. */
  function InsertFile(f: FileInfo, files: seq<FileInfo>, leq: (string, string) -> bool): (r: seq<FileInfo>)
    ensures multiset(r) == multiset(files) + multiset{f}
    ensures |r| == |files| + 1
  {
    if files == [] || InOrder(f, files[0], leq) then [f] + files
    else
      assert files == [files[0]] + files[1..];
      [files[0]] + InsertFile(f, files[1..], leq)
  }

  /** The stable sort `Array.prototype.sort` performs with the folders-first comparator. */
  function SortFiles(files: seq<FileInfo>, leq: (string, string) -> bool): (r: seq<FileInfo>)
    ensures multiset(r) == multiset(files)
    ensures |r| == |files|
  {
    if files == [] then []
    else
      assert files == [files[0]] + files[1..];
      InsertFile(files[0], SortFiles(files[1..], leq), leq)
  }

  /** A description that may precede every element of a sorted list may lead it. */
  lemma ConsSorted(x: FileInfo, files: seq<FileInfo>, leq: (string, string) -> bool)
    requires SortedFiles(files, leq)
    requires forall k :: 0 <= k < |files| ==> InOrder(x, files[k], leq)
    ensures SortedFiles([x] + files, leq)
  {
    var r := [x] + files;
    forall i, j | 0 <= i < j < |r|
      ensures InOrder(r[i], r[j], leq)
    {
      if i > 0 {
        assert r[i] == files[i - 1] && r[j] == files[j - 1];
      }
    }
  }

  lemma {:induction false} InsertFileSorted(f: FileInfo, files: seq<FileInfo>, leq: (string, string) -> bool)
    requires Total(leq)
    requires SortedFiles(files, leq)
    ensures SortedFiles(InsertFile(f, files, leq), leq)
  {
    if files == [] {
      ConsSorted(f, files, leq);
    } else if InOrder(f, files[0], leq) {
      forall k | 0 <= k < |files|
        ensures InOrder(f, files[k], leq)
      {
        if k > 0 {
          InOrderTransitive(f, files[0], files[k], leq);
        }
      }
      ConsSorted(f, files, leq);
    } else {
      var rest := InsertFile(f, files[1..], leq);
      assert InOrder(files[0], f, leq);
      InsertFileSorted(f, files[1..], leq);
      forall k | 0 <= k < |rest|
        ensures InOrder(files[0], rest[k], leq)
      {
        assert rest[k] in multiset(rest);
        if rest[k] != f {
          assert rest[k] in files[1..];
        }
      }
      ConsSorted(files[0], rest, leq);
    }
  }

  lemma {:induction false} SortFilesSorted(files: seq<FileInfo>, leq: (string, string) -> bool)
    requires Total(leq)
    ensures SortedFiles(SortFiles(files, leq), leq)
  {
    if files != [] {
      SortFilesSorted(files[1..], leq);
      InsertFileSorted(files[0], SortFiles(files[1..], leq), leq);
    }
  }

  /**
   * After the sort every folder precedes every file, names are in order
   * within each kind, and the descriptions are those of the input.
   */
  lemma SortFilesCorrect(files: seq<FileInfo>, leq: (string, string) -> bool)
    requires Total(leq)
    ensures multiset(SortFiles(files, leq)) == multiset(files)
    ensures forall i, j :: 0 <= i < j < |files| && SortFiles(files, leq)[j].isDirectory ==>
              SortFiles(files, leq)[i].isDirectory
    ensures forall i, j :: 0 <= i < j < |files| && SortFiles(files, leq)[i].isDirectory == SortFiles(files, leq)[j].isDirectory ==>
              leq(SortFiles(files, leq)[i].name, SortFiles(files, leq)[j].name)
  {
    SortFilesSorted(files, leq);
  }

  /** `readDirectory(dirPath)` for the entries the directory holds. */
  method ReadDirectory(entries: seq<DirEntry>, leq: (string, string) -> bool) returns (files: seq<FileInfo>)
    ensures files == SortFiles(Map(entries, Describe), leq)
    ensures multiset(files) == multiset(Map(entries, Describe))
    ensures Total(leq) ==> SortedFiles(files, leq)
  {
    var listed: seq<FileInfo> := [];
    for i := 0 to |entries|
      invariant |listed| == i
      invariant forall t :: 0 <= t < i ==> listed[t] == Describe(entries[t])
    {
      listed := listed + [Describe(entries[i])];
    }
    assert listed == Map(entries, Describe);
    files := SortFiles(listed, leq);
    if Total(leq) {
      SortFilesSorted(listed, leq);
    }
  }

  // ---------------------------------------------------------------------------
  // GET /api/files

  datatype Response = Error(status: nat, message: string) | Listing(files: seq<FileInfo>)

  const MissingPath := "缺少路徑參數"
  const NoPermission := "無權限訪問此路徑"
  const NotFound := "路徑不存在"
  const ReadFailed := "讀取目錄失敗: "

  /**
   * The `path` value Express's query parser gives: absent, a string, or,
   * for a repeated (`?path=a&path=b`) or bracketed (`?path[x]=1`)
   * parameter, an array or an object. Arrays and objects are truthy.
   */
  datatype QueryParam = NoParam | Param(s: string) | ParamArray | ParamObject

  /** The message of the TypeError `path.resolve` throws on an argument that is not a string. */
  function ResolveTypeError(dirPath: QueryParam): string
  {
    "The \"paths[0]\" argument must be of type string. Received an instance of " +
    (if dirPath.ParamArray? then "Array" else "Object")
  }

  /**
   * The checks before the directory is read, in their order: a missing or
   * empty `path` parameter, a parameter `path.resolve` throws on (caught as
   * a 500), a resolved path that does not start with the resolved root, a
   * path that does not exist. `None` means all passed.
   */
  function Precheck(dirPath: QueryParam, resolve: string -> string, pathExists: string -> bool): (r: Option<Response>)
    ensures r == Some(Error(400, MissingPath)) <==> dirPath.NoParam? || dirPath == Param("")
    ensures r.Some? && r.value.Error? && r.value.status == 500 <==> dirPath.ParamArray? || dirPath.ParamObject?
    ensures dirPath.ParamArray? || dirPath.ParamObject? ==> r == Some(Error(500, ReadFailed + ResolveTypeError(dirPath)))
    ensures r == Some(Error(403, NoPermission)) <==>
              dirPath.Param? && dirPath.s != "" && !StartsWith(resolve(dirPath.s), resolve("."))
    ensures r == Some(Error(404, NotFound)) <==>
              dirPath.Param? && dirPath.s != "" && StartsWith(resolve(dirPath.s), resolve(".")) &&
              !pathExists(resolve(dirPath.s))
    ensures r.None? <==>
              dirPath.Param? && dirPath.s != "" && StartsWith(resolve(dirPath.s), resolve(".")) &&
              pathExists(resolve(dirPath.s))
  {
    match dirPath
    case NoParam => Some(Error(400, MissingPath))
    case ParamArray => Some(Error(500, ReadFailed + ResolveTypeError(dirPath)))
    case ParamObject => Some(Error(500, ReadFailed + ResolveTypeError(dirPath)))
    case Param(p) =>
      if p == "" then Some(Error(400, MissingPath))
      else
        var safePath := resolve(p);
        if !StartsWith(safePath, resolve(".")) then Some(Error(403, NoPermission))
        else if !pathExists(safePath) then Some(Error(404, NotFound))
        else None
  }

  /**
   * The containment test is a plain string prefix: a sibling directory
   * whose name extends the root's ("/srv/app-x" next to "/srv/app") is not
   * refused.
   */
  lemma SiblingPassesContainment(root: string, sibling: string, dirPath: string,
                                 resolve: string -> string, pathExists: string -> bool)
    requires resolve(".") == root && resolve(dirPath) == root + "-" + sibling && dirPath != ""
    ensures Precheck(Param(dirPath), resolve, pathExists) != Some(Error(403, NoPermission))
    ensures pathExists(root + "-" + sibling) ==> Precheck(Param(dirPath), resolve, pathExists).None?
  {
    assert (root + "-" + sibling)[..|root|] == root;
  }

  /** The handler of `GET /api/files`. */
  method ListFiles(dirPath: QueryParam, resolve: string -> string, pathExists: string -> bool,
                   read: string -> Result<seq<DirEntry>>, leq: (string, string) -> bool)
    returns (response: Response)
    ensures Precheck(dirPath, resolve, pathExists).Some? ==> response == Precheck(dirPath, resolve, pathExists).value
    ensures Precheck(dirPath, resolve, pathExists).None? && read(resolve(dirPath.s)).Failure? ==>
              response == Error(500, ReadFailed + read(resolve(dirPath.s)).error)
    ensures Precheck(dirPath, resolve, pathExists).None? && read(resolve(dirPath.s)).Success? ==>
              response.Listing? &&
              multiset(response.files) == multiset(Map(read(resolve(dirPath.s)).value, Describe)) &&
              (Total(leq) ==> SortedFiles(response.files, leq))
    ensures response.Listing? ==> Precheck(dirPath, resolve, pathExists).None?
  {
    var early := Precheck(dirPath, resolve, pathExists);
    if early.Some? {
      return early.value;
    }
    var safePath := resolve(dirPath.s);
    var entries := read(safePath);
    if entries.Failure? {
      return Error(500, ReadFailed + entries.error);
    }
    var files := ReadDirectory(entries.value, leq);
    response := Listing(files);
  }
}
