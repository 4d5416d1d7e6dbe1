/**
 * The write half of the filesystem namespace
 * (nerve/tools/namespaces/filesystem_w.py): the jail predicate over resolved
 * paths, the access check that comes before any effect, and the responses
 * of `create_file` and `delete_file` over a map-based disk.
 */
module FilesystemW {
  import opened Wrappers
  import opened Strings

  /** An absolute, resolved path as its components below the root. */
  type Path = seq<string>

  /** `Path.parents` of an absolute path: every proper ancestor, nearest first, the root last. */
  function Parents(p: Path): (r: seq<Path>)
    ensures |r| == |p|
    ensures forall k :: 0 <= k < |p| ==> r[k] == p[..|p| - 1 - k]
  {
    seq(|p|, k requires 0 <= k < |p| => p[..|p| - 1 - k])
  }

  /** `path == allowed or allowed in path.parents`. */
  predicate Allows(allowed: Path, path: Path) {
    path == allowed || allowed in Parents(path)
  }

  /**
   * The test is component-wise: an entry allows exactly the paths it is a
   * prefix of, so `/a/b` allows `/a/b/c` but not `/a/bc`.
   */
  lemma AllowsIffPrefix(allowed: Path, path: Path)
    ensures Allows(allowed, path) <==> |allowed| <= |path| && path[..|allowed|] == allowed
  {
    if |allowed| < |path| && path[..|allowed|] == allowed {
      assert Parents(path)[|path| - 1 - |allowed|] == allowed;
    }
  }

  lemma SiblingWithLongerNameNotAllowed(base: Path, name: string, suffix: string)
    requires suffix != []
    ensures !Allows(base + [name], base + [name + suffix])
  {
    var a, p := base + [name], base + [name + suffix];
    AllowsIffPrefix(a, p);
    assert |name + suffix| != |name|;
    assert p[..|a|][|base|] == name + suffix;
    assert a[|base|] == name;
  }

  /** Some entry of the jail, resolved, allows the path. */
  function AnyAllows(jail: seq<string>, resolve: string -> Path, path: Path): (r: bool)
    ensures r <==> exists i :: 0 <= i < |jail| && Allows(resolve(jail[i]), path)
  {
    if jail == [] then false
    else if Allows(resolve(jail[0]), path) then true
    else
      var rest := AnyAllows(jail[1..], resolve, path);
      assert forall i :: 1 <= i < |jail| ==> jail[i] == jail[1..][i - 1];
      rest
  }

  /**
   * `_path_allowed`: an empty jail allows everything; otherwise the resolved
   * path must lie at or below some resolved jail entry. `resolve` stands for
   * `Path(...).resolve().absolute()`, which consults the working directory
   * and symbolic links.
   */
  function PathAllowed(jail: seq<string>, resolve: string -> Path, pathToCheck: string): (r: bool)
    ensures jail == [] ==> r
    ensures jail != [] ==> (r <==> exists i :: 0 <= i < |jail| && Allows(resolve(jail[i]), resolve(pathToCheck)))
  {
    jail == [] || AnyAllows(jail, resolve, resolve(pathToCheck))
  }

  /** A path the jail allows keeps every path below it allowed. */
  lemma AllowedBelow(jail: seq<string>, resolve: string -> Path, p: string, q: string)
    requires PathAllowed(jail, resolve, p)
    requires |resolve(p)| <= |resolve(q)| && resolve(q)[..|resolve(p)|] == resolve(p)
    ensures PathAllowed(jail, resolve, q)
  {
    if jail != [] {
      var i :| 0 <= i < |jail| && Allows(resolve(jail[i]), resolve(p));
      var a := resolve(jail[i]);
      AllowsIffPrefix(a, resolve(p));
      assert resolve(q)[..|a|] == resolve(q)[..|resolve(p)|][..|a|];
      AllowsIffPrefix(a, resolve(q));
    }
  }

  /** Python `repr` of a list of strings, as the f-string renders the jail. */
  function ReprList(xs: seq<string>): string {
    "[" + Join(", ", seq(|xs|, k requires 0 <= k < |xs| => "'" + xs[k] + "'")) + "]"
  }

  function AccessDeniedMessage(jail: seq<string>, pathToCheck: string): string {
    "access to path " + pathToCheck + " is not allowed, only allowed paths are: " + ReprList(jail)
  }

  /** What `os.remove` raises for a path that is not a regular file. */
  function RemoveError(d: Disk, path: string): (e: FsError)
    reads d
    ensures !e.AccessDenied? && e.path == path
    ensures e.IsADirectory? <==> path in d.dirs
    ensures e.NotADirectory? <==> path !in d.dirs && Dirname(path) != [] && Dirname(path) in d.files
  {
    if path in d.dirs then IsADirectory(path)
    else if Dirname(path) != [] && Dirname(path) in d.files then NotADirectory(path)
    else FileNotFound(path)
  }

  /** What the two operations can raise. */
  datatype FsError =
    | AccessDenied(message: string)
    | IsADirectory(path: string)
    | NotADirectory(path: string)
    | FileNotFound(path: string)

  /** `_path_acl`: a `ValueError` exactly when the path is not allowed. */
  function PathAcl(jail: seq<string>, resolve: string -> Path, pathToCheck: string): (r: Option<FsError>)
    ensures r.None? <==> PathAllowed(jail, resolve, pathToCheck)
    ensures r.Some? ==> r.value == AccessDenied(AccessDeniedMessage(jail, pathToCheck))
  {
    if PathAllowed(jail, resolve, pathToCheck) then None
    else Some(AccessDenied(AccessDeniedMessage(jail, pathToCheck)))
  }

  // ---------------------------------------------------------------------------
  // Path strings

  /** The last position of `c` in `s`. */
  function LastIndexOf(s: string, c: char): (r: Option<nat>)
    ensures r.Some? ==> r.value < |s| && s[r.value] == c && c !in s[r.value + 1..]
    ensures r.None? <==> c !in s
  {
    if s == [] then None
    else if s[|s| - 1] == c then Some(|s| - 1)
    else
      var r := LastIndexOf(s[..|s| - 1], c);
      assert s == s[..|s| - 1] + [s[|s| - 1]];
      r
  }

  /** The last occurrence is the one with none after it. */
  lemma {:induction false} LastIndexOfAt(s: string, c: char, i: nat)
    requires i < |s| && s[i] == c && c !in s[i + 1..]
    ensures LastIndexOf(s, c) == Some(i)
    decreases |s|
  {
    if i < |s| - 1 {
      assert s[|s| - 1] == s[i + 1..][|s| - i - 2];
      assert s[..|s| - 1][i + 1..] == s[i + 1..|s| - 1];
      LastIndexOfAt(s[..|s| - 1], c, i);
    }
  }

  /** Drops trailing `/` characters. */
  function RStripSlashes(s: string): (r: string)
    ensures |r| <= |s| && r == s[..|r|]
    ensures r != [] ==> r[|r| - 1] != '/'
    ensures forall k :: |r| <= k < |s| ==> s[k] == '/'
  {
    if s != [] && s[|s| - 1] == '/' then RStripSlashes(s[..|s| - 1]) else s
  }

  predicate AllSlashes(s: string) {
    forall k :: 0 <= k < |s| ==> s[k] == '/'
  }

  /** Stripping the trailing slashes of a head that is not all slashes leaves something. */
  lemma StripKeepsNonSlash(head: string)
    requires !AllSlashes(head)
    ensures RStripSlashes(head) != []
  {
    var k :| 0 <= k < |head| && head[k] != '/';
    assert k < |RStripSlashes(head)|;
  }

  /**
   * `os.path.dirname`: everything up to the last `/`, with trailing slashes
   * removed unless it consists of slashes only. A path has a directory part
   * exactly when it contains a `/`, and the part is a prefix of the path.
   */
  function Dirname(p: string): (r: string)
    ensures r == [] <==> '/' !in p
    ensures |r| <= |p| && r == p[..|r|]
  {
    var head := match LastIndexOf(p, '/') case Some(i) => p[..i + 1] case None => "";
    if head != [] && !AllSlashes(head) then
      StripKeepsNonSlash(head);
      RStripSlashes(head)
    else head
  }

  // ---------------------------------------------------------------------------
  // Responses

  /**
   * The text `create_file` returns once the file is written. It opens with
   * the parent directory notice exactly when the parent was created, and ends
   * in `updated` exactly when the file existed.
   */
  function CreateResponse(path: string, parentDir: string, parentCreated: bool, existed: bool): (r: string)
    ensures StartsWith(r, "Created parent directory ") <==> parentCreated
    ensures StartsWith(r, "Created parent directory ") ==> StartsWith(r, "Created parent directory " + parentDir + ".\n")
    ensures EndsWith(r, "updated.\n") <==> existed
    ensures EndsWith(r, "created.\n") <==> !existed
  {
    var notice := if parentCreated then "Created parent directory " + parentDir + ".\n" else "";
    var tail := if existed then " updated.\n" else " created.\n";
    var line := "File " + path + tail;
    assert line[0] == 'F';
    ResponseStart(notice, parentDir, parentCreated, line);
    assert notice + line == (notice + "File " + path) + tail;
    ResponseEnd(notice + "File " + path, existed);
    notice + line
  }

  /** The response is the optional parent notice followed by the file line. */
  lemma CreateResponseParts(path: string, parentDir: string, parentCreated: bool, existed: bool)
    ensures CreateResponse(path, parentDir, parentCreated, existed)
         == (if parentCreated then "Created parent directory " + parentDir + ".\n" else "")
            + "File " + path + (if existed then " updated.\n" else " created.\n")
  {
  }

  /** The text before the file line decides how the response starts. */
  lemma ResponseStart(notice: string, parentDir: string, parentCreated: bool, rest: string)
    requires notice == if parentCreated then "Created parent directory " + parentDir + ".\n" else ""
    requires rest != [] && rest[0] == 'F'
    ensures StartsWith(notice + rest, "Created parent directory ") <==> parentCreated
    ensures parentCreated ==> StartsWith(notice + rest, "Created parent directory " + parentDir + ".\n")
  {
    var r := notice + rest;
    if parentCreated {
      assert r[..|notice|] == notice;
      assert notice[..25] == "Created parent directory ";
    } else {
      assert r[0] == 'F';
    }
  }

  /** The last line's word decides how the response ends. */
  lemma ResponseEnd(head: string, existed: bool)
    ensures var r := head + (if existed then " updated.\n" else " created.\n");
      (EndsWith(r, "updated.\n") <==> existed) && (EndsWith(r, "created.\n") <==> !existed)
  {
    var tail := if existed then " updated.\n" else " created.\n";
    var r := head + tail;
    assert r[|r| - 9..] == tail[1..];
  }

  predicate EndsWith(s: string, suffix: string) {
    |suffix| <= |s| && s[|s| - |suffix|..] == suffix
  }

  function DeleteResponse(path: string): string {
    "File " + path + " deleted."
  }

  /**
   * The disk as the two operations see it: file contents and directories,
   * both addressed by the path strings `os.path` receives.
   */
  class Disk {
    var files: map<string, string>
    var dirs: set<string>

    constructor(files0: map<string, string>, dirs0: set<string>)
      ensures files == files0 && dirs == dirs0
    {
      files := files0;
      dirs := dirs0;
    }

    /** `os.path.exists`. */
    function PathExists(p: string): bool
      reads this
    {
      p in files || p in dirs
    }

    /**
     * `create_file`: the access check first, then the parent directory, then
     * the write (which fails on a directory, and below a parent that is a
     * regular file), then the response.
     */
    method CreateFile(jail: seq<string>, resolve: string -> Path, path: string, content: Option<string>)
      returns (r: Result<string, FsError>)
      modifies this
      ensures !PathAllowed(jail, resolve, path) ==>
        r == Err(AccessDenied(AccessDeniedMessage(jail, path))) && files == old(files) && dirs == old(dirs)
      ensures PathAllowed(jail, resolve, path) ==>
        var parent := Dirname(path);
        var created := parent != [] && !old(PathExists(parent));
        && dirs == old(dirs) + (if created then {parent} else {})
        && (parent != [] && parent in old(files) ==> r == Err(NotADirectory(path)) && files == old(files))
        && ((parent == [] || parent !in old(files)) && path in dirs ==> r == Err(IsADirectory(path)) && files == old(files))
        && ((parent == [] || parent !in old(files)) && path !in dirs ==>
              && files == old(files)[path := content.GetOr("")]
              && r == Ok(CreateResponse(path, parent, created, old(PathExists(path)))))
    {
      var denied := PathAcl(jail, resolve, path);
      if denied.Some? {
        return Err(denied.value);
      }
      var response := "";
      var parentDir := Dirname(path);
      var created := false;
      if parentDir != [] && !PathExists(parentDir) {
        dirs := dirs + {parentDir};
        created := true;
        response := response + "Created parent directory " + parentDir + ".\n";
      }
      assert response == if created then "Created parent directory " + parentDir + ".\n" else "";
      var existed := PathExists(path);
      if parentDir != [] && parentDir in files {
        return Err(NotADirectory(path));
      }
      if path in dirs {
        return Err(IsADirectory(path));
      }
      files := files[path := if content.Some? then content.value else ""];
      if existed {
        response := response + "File " + path + " updated.\n";
      } else {
        response := response + "File " + path + " created.\n";
      }
      CreateResponseParts(path, parentDir, created, existed);
      r := Ok(response);
    }

    /**
     * `delete_file`: the access check first, then `os.remove`, which fails on
     * a directory, below a parent that is a regular file, and on a missing file.
     */
    method DeleteFile(jail: seq<string>, resolve: string -> Path, path: string)
      returns (r: Result<string, FsError>)
      modifies this
      ensures dirs == old(dirs)
      ensures !PathAllowed(jail, resolve, path) ==>
        r == Err(AccessDenied(AccessDeniedMessage(jail, path))) && files == old(files)
      ensures PathAllowed(jail, resolve, path) && path in old(files) ==>
        r == Ok(DeleteResponse(path)) && files == old(files) - {path}
      ensures PathAllowed(jail, resolve, path) && path !in old(files) ==>
        r == Err(RemoveError(this, path)) && files == old(files)
    {
      var denied := PathAcl(jail, resolve, path);
      if denied.Some? {
        return Err(denied.value);
      }
      if path !in files {
        return Err(RemoveError(this, path));
      }
      files := files - {path};
      r := Ok("File " + path + " deleted.");
    }
  }
}
