/**
 * What the JAR processors see of the outside world: the `jar` tool, reduced to the exit
 * status and text it produces for a file, and the files and archives on disk, reduced to
 * readability and the entries of each archive. Also the file-argument validation every
 * processor shares.
 */
module JarEnvironment {
  import opened Wrappers
  import opened JavaStrings

  /** What one run of the `jar` tool returns: its exit status and what it printed. */
  datatype ToolRun = ToolRun(status: int, output: string)

  /** The `jar` tool: `--describe-module --file p` and `--list --file p`, by file path. */
  datatype JarTool = JarTool(describeModule: string -> ToolRun, list: string -> ToolRun)

  /** An archive entry as `Files.isRegularFile` and `Files.readAllLines` see it. */
  datatype Entry = Regular(lines: seq<string>) | NotRegular | ReadError

  /**
   * A JAR opened as a zip file system: whether it opens at all, its entries by path, and
   * whether its manifest declares `Automatic-Module-Name`.
   */
  datatype Archive = Archive(opens: bool, entries: string -> Entry, automaticModuleName: bool)

  /** The files on disk: which paths can be read, and the archive behind each path. */
  datatype Disk = Disk(canRead: string -> bool, archive: string -> Archive)

  /** A `JARProcessorException` and its message. */
  datatype Error = ProcessorError(message: string)

  /** `File.getName`: the path component after the last '/'. */
  function FileName(path: string): (name: string)
    ensures |name| <= |path| && name == path[|path| - |name|..]
    ensures forall k :: 0 <= k < |name| ==> name[k] != '/'
    ensures |name| < |path| ==> path[|path| - |name| - 1] == '/'
    decreases |path|
  {
    if path == [] then []
    else if path[|path| - 1] == '/' then []
    else FileName(path[..|path| - 1]) + [path[|path| - 1]]
  }

  /** The file name ends in ".jar" in any letter case. */
  predicate HasJarSuffix(path: string) {
    EndsWith(Lower(FileName(path)), ".jar")
  }

  /** No '/' directly follows another '/'. */
  predicate NoDoubleSlash(s: string) {
    forall i, j :: 0 <= i < |s| && 0 <= j < |s| && j == i + 1 ==> !(s[i] == '/' && s[j] == '/')
  }

  /** Drops every '/' that directly precedes another '/', so runs of slashes become one. */
  function CollapseSlashes(s: string): (r: string)
    ensures |r| <= |s|
    ensures s != [] ==> r != [] && r[0] == s[0] && r[|r| - 1] == s[|s| - 1]
    ensures NoDoubleSlash(r)
    decreases |s|
  {
    if |s| <= 1 then s
    else if s[0] == '/' && s[1] == '/' then CollapseSlashes(s[1..])
    else [s[0]] + CollapseSlashes(s[1..])
  }

  /** A path without "//" is left as it is. */
  lemma {:induction false} CollapseFixed(s: string)
    requires NoDoubleSlash(s)
    ensures CollapseSlashes(s) == s
    decreases |s|
  {
    if |s| > 1 {
      assert !(s[0] == '/' && s[1] == '/');
      assert NoDoubleSlash(s[1..]) by {
        forall k | 0 <= k < |s[1..]| - 1
          ensures !(s[1..][k] == '/' && s[1..][k + 1] == '/')
        {
          assert s[1..][k] == s[k + 1] && s[1..][k + 1] == s[k + 2];
        }
      }
      CollapseFixed(s[1..]);
      assert s == [s[0]] + s[1..];
    }
  }

  /**
   * The path a `java.io.File` keeps for a Unix path string: runs of '/' become one and a
   * trailing '/' is dropped, except for the root "/" itself.
   */
  function Normalize(path: string): (p: string)
    ensures |p| <= |path|
    ensures path != [] ==> p != [] && p[0] == path[0]
    ensures NoDoubleSlash(p)
    ensures |p| > 1 ==> p[|p| - 1] != '/'
  {
    var c := CollapseSlashes(path);
    if |c| > 1 && c[|c| - 1] == '/' then c[..|c| - 1]
    else c
  }

  /** A path that is already in normal form is kept as it is. */
  lemma NormalizeFixed(path: string)
    requires NoDoubleSlash(path) && (|path| > 1 ==> path[|path| - 1] != '/')
    ensures Normalize(path) == path
  {
    CollapseFixed(path);
  }

  /** Normalising twice is normalising once. */
  lemma NormalizeIdempotent(path: string)
    ensures Normalize(Normalize(path)) == Normalize(path)
  {
    NormalizeFixed(Normalize(path));
  }

  /**
   * `jarFile(arg)`: the normalised path of a readable file whose name ends in ".jar"
   * (ignoring case), or the reason it is refused, which names the normalised path.
   */
  function JarFile(disk: Disk, arg: string): (r: Result<string, Error>)
    ensures r.Ok? <==> disk.canRead(Normalize(arg)) && HasJarSuffix(Normalize(arg))
    ensures r.Ok? ==> r.value == Normalize(arg)
    ensures !disk.canRead(Normalize(arg)) ==>
              r == Err(ProcessorError("File does not exist: " + Normalize(arg)))
    ensures disk.canRead(Normalize(arg)) && !HasJarSuffix(Normalize(arg)) ==>
              r == Err(ProcessorError("File does not seem to be a JAR file: " + Normalize(arg)))
  {
    var p := Normalize(arg);
    if !disk.canRead(p) then Err(ProcessorError("File does not exist: " + p))
    else if !HasJarSuffix(p) then Err(ProcessorError("File does not seem to be a JAR file: " + p))
    else Ok(p)
  }

  /** Validating an accepted path again accepts the same path. */
  lemma JarFileStable(disk: Disk, arg: string)
    requires JarFile(disk, arg).Ok?
    ensures JarFile(disk, JarFile(disk, arg).value) == JarFile(disk, arg)
  {
    NormalizeIdempotent(arg);
  }

  /** The name of "dir/name" is "name" when it has no '/'. */
  lemma {:induction false} FileNameOfPath(dir: string, name: string)
    requires forall k :: 0 <= k < |name| ==> name[k] != '/'
    ensures FileName(dir + "/" + name) == name
    decreases |name|
  {
    var p := dir + "/" + name;
    if name == [] {
      assert p[|p| - 1] == '/';
    } else {
      assert p[..|p| - 1] == dir + "/" + name[..|name| - 1];
      FileNameOfPath(dir, name[..|name| - 1]);
      assert name == name[..|name| - 1] + [name[|name| - 1]];
    }
  }

  /** "dir/name" is already normal when neither part holds a '/' and the name is not empty. */
  lemma NormalPath(dir: string, name: string)
    requires forall k :: 0 <= k < |dir| ==> dir[k] != '/'
    requires forall k :: 0 <= k < |name| ==> name[k] != '/'
    requires name != []
    ensures Normalize(dir + "/" + name) == dir + "/" + name
  {
    var p := dir + "/" + name;
    forall k | 0 <= k < |p| - 1
      ensures !(p[k] == '/' && p[k + 1] == '/')
    {
      if k < |dir| {
        assert p[k] == dir[k];
      } else {
        assert p[k + 1] == name[k - |dir|];
      }
    }
    assert p[|p| - 1] == name[|name| - 1];
    NormalizeFixed(p);
  }

  /** A trailing '/' after a normal path of more than one character is dropped. */
  lemma {:induction false} TrailingSlashDropped(p: string)
    requires NoDoubleSlash(p) && |p| > 1 && p[|p| - 1] != '/'
    ensures Normalize(p + "/") == p
  {
    var q := p + "/";
    forall k | 0 <= k < |q| - 1
      ensures !(q[k] == '/' && q[k + 1] == '/')
    {
      if k < |p| - 1 {
        assert q[k] == p[k] && q[k + 1] == p[k + 1];
      }
    }
    CollapseFixed(q);
    assert q[..|q| - 1] == p;
  }

  /** A doubled '/' collapses to one. */
  lemma {:induction false} DoubleSlashCollapsed(a: string, b: string)
    ensures CollapseSlashes(a + "//" + b) == CollapseSlashes(a + "/" + b)
    decreases |a|
  {
    var s, t := a + "//" + b, a + "/" + b;
    if a == [] {
      assert s[1..] == t;
    } else {
      assert s[0] == t[0] && s[1] == t[1];
      assert s[1..] == a[1..] + "//" + b;
      assert t[1..] == a[1..] + "/" + b;
      DoubleSlashCollapsed(a[1..], b);
    }
  }

  /** Helper for `OnlyNameIsChecked`: the example path is already in normal form. */
  lemma NotesPathNormal()
    ensures Normalize("lib.jar/notes.txt") == "lib.jar/notes.txt"
  {
    NormalPath("lib.jar", "notes.txt");
    assert "lib.jar" + "/" + "notes.txt" == "lib.jar/notes.txt";
  }

  /** Helper for `OnlyNameIsChecked`: the example file name lacks the ".jar" suffix. */
  lemma NotesNameNotJar()
    ensures !HasJarSuffix("lib.jar/notes.txt")
  {
    FileNameOfPath("lib.jar", "notes.txt");
    assert "lib.jar" + "/" + "notes.txt" == "lib.jar/notes.txt";
    assert Lower("notes.txt")[6] == 't';
  }

  /** The suffix test looks at the file name only: a directory called "lib.jar" does not make its files JARs. */
  lemma OnlyNameIsChecked(disk: Disk)
    requires disk.canRead("lib.jar/notes.txt")
    ensures JarFile(disk, "lib.jar/notes.txt").Err?
  {
    NotesPathNormal();
    NotesNameNotJar();
  }

  /** Helper for `UpperCaseSuffixAccepted` and `SlashesNormalized`: a JAR name joined to a directory is normal and keeps its suffix. */
  lemma JarNameInDir(dir: string, name: string)
    requires forall k :: 0 <= k < |dir| ==> dir[k] != '/'
    requires forall k :: 0 <= k < |name| ==> name[k] != '/'
    requires name != [] && EndsWith(Lower(name), ".jar")
    ensures HasJarSuffix(dir + "/" + name) && Normalize(dir + "/" + name) == dir + "/" + name
  {
    FileNameOfPath(dir, name);
    NormalPath(dir, name);
  }

  /** "dir//name/" normalises to "dir/name". */
  lemma DoubleAndTrailingSlash(dir: string, name: string)
    requires forall k :: 0 <= k < |dir| ==> dir[k] != '/'
    requires forall k :: 0 <= k < |name| ==> name[k] != '/'
    requires name != []
    ensures Normalize(dir + "//" + name + "/") == dir + "/" + name
  {
    var p := dir + "/" + name;
    DoubleSlashCollapsed(dir, name + "/");
    assert dir + "//" + (name + "/") == dir + "//" + name + "/";
    assert dir + "/" + (name + "/") == p + "/";
    NormalPath(dir, name);
    TrailingSlashDropped(p);
  }

  /** Upper-case suffixes are accepted, in any directory. */
  lemma UpperCaseSuffixAccepted(disk: Disk, dir: string)
    requires forall k :: 0 <= k < |dir| ==> dir[k] != '/'
    requires disk.canRead(dir + "/" + "App.JAR")
    ensures JarFile(disk, dir + "/" + "App.JAR") == Ok(dir + "/" + "App.JAR")
  {
    assert Lower("App.JAR") == "app.jar";
    JarNameInDir(dir, "App.JAR");
  }

  /** Doubled and trailing slashes are normalised away before the checks, as `java.io.File` does. */
  lemma SlashesNormalized(disk: Disk, dir: string)
    requires forall k :: 0 <= k < |dir| ==> dir[k] != '/'
    requires disk.canRead(dir + "/" + "App.jar")
    ensures JarFile(disk, dir + "//" + "App.jar" + "/") == Ok(dir + "/" + "App.jar")
  {
    assert Lower("App.jar") == "app.jar";
    JarNameInDir(dir, "App.jar");
    DoubleAndTrailingSlash(dir, "App.jar");
  }
}
