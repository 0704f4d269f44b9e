/** src/tools/file_tools.py: sandboxed reads and writes over a filesystem held
    as a map from absolute path to content, and the `.py` listing filter.
    `os.path.abspath` is the function the file system was built with;
    `os.listdir` is given as its result (`None` when the directory is missing). */
module FileTools {
  import opened Wrappers
  import opened Text

  /** `os.path.join(a, b)` (POSIX): an absolute `b` wins, otherwise one '/' separates them. */
  function PathJoin(a: string, b: string): string {
    if StartsWith(b, "/") then b
    else if a == [] || EndsWith(a, "/") then a + b
    else a + "/" + b
  }

  /** The joined path ends with the name joined. */
  lemma PathJoinEnds(a: string, b: string)
    ensures EndsWith(PathJoin(a, b), b)
  {
    var r := PathJoin(a, b);
    assert r[|r| - |b|..] == b;
  }

  /** `os.path.basename(p)`: what follows the last '/'. */
  function Basename(p: string): (r: string)
    ensures '/' !in r && EndsWith(p, r)
  {
    if |p| == 0 then ""
    else if p[|p| - 1] == '/' then ""
    else Basename(p[..|p| - 1]) + [p[|p| - 1]]
  }

  lemma {:induction false} BasenameOfJoin(dir: string, name: string)
    requires '/' !in name && name != []
    ensures Basename(PathJoin(dir, name)) == name
  {
    var p := PathJoin(dir, name);
    BasenameSuffix(if p == name then [] else p[..|p| - |name|], name);
    assert p == (if p == name then [] else p[..|p| - |name|]) + name;
  }

  lemma {:induction false} BasenameSuffix(prefix: string, name: string)
    requires '/' !in name && (prefix == [] || prefix[|prefix| - 1] == '/')
    ensures Basename(prefix + name) == name
  {
    if name == [] {
      assert prefix + name == prefix;
    } else {
      var n := |name|;
      var p := prefix + name;
      assert p[|p| - 1] == name[n - 1] && name[n - 1] != '/';
      assert p[..|p| - 1] == prefix + name[..n - 1];
      var init := name[..n - 1];
      assert '/' !in init by {
        forall k | 0 <= k < |init| ensures init[k] != '/' {
          assert init[k] == name[k];
        }
      }
      BasenameSuffix(prefix, name[..n - 1]);
      assert Basename(p) == Basename(p[..|p| - 1]) + [p[|p| - 1]];
      assert name[..n - 1] + [name[n - 1]] == name;
    }
  }

  /** The directory a call is confined to: `abspath("sandbox")` when no
      `sandbox_dir` is passed, else `abspath(sandbox_dir)`. */
  function SandboxRoot(abspath: string -> string, sandboxDir: Option<string>): string {
    match sandboxDir
    case None => abspath("sandbox")
    case Some(d) => abspath(d)
  }

  /** The containment check shared by both read and write. */
  predicate Contained(abspath: string -> string, filepath: string, sandboxDir: Option<string>) {
    StartsWith(abspath(filepath), SandboxRoot(abspath, sandboxDir))
  }

  /** What `read_file_safe` returns over the file map `files`. */
  function ReadFrom(files: map<string, string>, abspath: string -> string, filepath: string,
                    sandboxDir: Option<string>): Result<string>
  {
    var abs := abspath(filepath);
    if !StartsWith(abs, SandboxRoot(abspath, sandboxDir)) then Err(PermissionError)
    else if abs in files then Ok(files[abs])
    else Err(FileNotFoundError)
  }

  /** Whether `write_file_safe` succeeds: the containment check, then the open. */
  function WriteOutcome(unwritable: set<string>, abspath: string -> string, filepath: string,
                        sandboxDir: Option<string>): Outcome
  {
    if !Contained(abspath, filepath, sandboxDir) then Fail(PermissionError)
    else if abspath(filepath) in unwritable then Fail(OSError)
    else Pass
  }

  /** The file map after `write_file_safe`: one entry replaced, or nothing on failure. */
  function Written(files: map<string, string>, unwritable: set<string>, abspath: string -> string,
                   filepath: string, content: string, sandboxDir: Option<string>): (w: map<string, string>)
    ensures WriteOutcome(unwritable, abspath, filepath, sandboxDir).Pass? ==>
      w == files[abspath(filepath) := content] && ReadFrom(w, abspath, filepath, sandboxDir) == Ok(content)
    ensures WriteOutcome(unwritable, abspath, filepath, sandboxDir).Fail? ==> w == files
  {
    if WriteOutcome(unwritable, abspath, filepath, sandboxDir).Pass? then files[abspath(filepath) := content] else files
  }

  /** A file system: `files` maps an absolute path to its content;
      `unwritable` holds the absolute paths whose `open(..., "w")` fails. */
  class FileSystem {
    var files: map<string, string>
    var unwritable: set<string>
    const abspath: string -> string

    constructor (abspath: string -> string, files: map<string, string>, unwritable: set<string>)
      ensures this.abspath == abspath && this.files == files && this.unwritable == unwritable
    {
      this.abspath := abspath;
      this.files := files;
      this.unwritable := unwritable;
    }

    /** Reads a file, refusing any path outside the sandbox. */
    function ReadFileSafe(filepath: string, sandboxDir: Option<string>): (r: Result<string>)
      reads this
      ensures r == Err(PermissionError) <==> !Contained(abspath, filepath, sandboxDir)
      ensures r.Ok? <==> Contained(abspath, filepath, sandboxDir) && abspath(filepath) in files
      ensures r.Ok? ==> r.value == files[abspath(filepath)]
      ensures r.Err? && r.error != PermissionError ==> r.error == FileNotFoundError
    {
      ReadFrom(files, abspath, filepath, sandboxDir)
    }

    /** `get_file_content`: an alias with the same answer on every input. */
    function GetFileContent(filepath: string, sandboxDir: Option<string>): (r: Result<string>)
      reads this
      ensures r == ReadFileSafe(filepath, sandboxDir)
    {
      ReadFileSafe(filepath, sandboxDir)
    }

    /** `write_file_safe`: refused paths and failed opens write nothing; a
        successful write changes exactly one entry, which then reads back. */
    method WriteFileSafe(filepath: string, content: string, sandboxDir: Option<string>) returns (r: Outcome)
      modifies this`files
      ensures !Contained(abspath, filepath, sandboxDir) ==> r == Fail(PermissionError) && files == old(files)
      ensures Contained(abspath, filepath, sandboxDir) && abspath(filepath) in unwritable ==>
        r == Fail(OSError) && files == old(files)
      ensures Contained(abspath, filepath, sandboxDir) && abspath(filepath) !in unwritable ==>
        r == Pass && files == old(files)[abspath(filepath) := content]
      ensures r == Pass ==> ReadFileSafe(filepath, sandboxDir) == Ok(content)
      ensures r == WriteOutcome(unwritable, abspath, filepath, sandboxDir)
      ensures files == Written(old(files), unwritable, abspath, filepath, content, sandboxDir)
      ensures forall p | p != abspath(filepath) :: (p in files <==> p in old(files)) && (p in files ==> files[p] == old(files)[p])
    {
      var abs := abspath(filepath);
      if !StartsWith(abs, SandboxRoot(abspath, sandboxDir)) {
        return Fail(PermissionError);
      }
      if abs in unwritable {
        return Fail(OSError);
      }
      files := files[abs := content];
      return Pass;
    }
  }

  /** The comprehension of `list_python_files` over one listing. */
  function PythonEntries(listing: seq<string>): (r: seq<string>)
    ensures |r| <= |listing|
  {
    if |listing| == 0 then []
    else (if EndsWith(listing[0], ".py") then [listing[0]] else []) + PythonEntries(listing[1..])
  }

  /** Exactly the entries ending in ".py" are kept. */
  lemma {:induction false} PythonEntriesMembers(listing: seq<string>, f: string)
    ensures f in PythonEntries(listing) <==> f in listing && EndsWith(f, ".py")
  {
    if |listing| > 0 {
      PythonEntriesMembers(listing[1..], f);
      assert listing == [listing[0]] + listing[1..];
    }
  }

  /** Order is kept: filtering a concatenation concatenates the filtered parts. */
  lemma {:induction false} PythonEntriesAppend(a: seq<string>, b: seq<string>)
    ensures PythonEntries(a + b) == PythonEntries(a) + PythonEntries(b)
  {
    if a == [] {
      assert a + b == b;
    } else {
      var keep := if EndsWith(a[0], ".py") then [a[0]] else [];
      assert (a + b)[0] == a[0];
      assert (a + b)[1..] == a[1..] + b;
      assert PythonEntries(a + b) == keep + PythonEntries(a[1..] + b);
      PythonEntriesAppend(a[1..], b);
      assert PythonEntries(a) == keep + PythonEntries(a[1..]);
    }
  }

  /** `list_python_files`: `listing` is what `os.listdir` returns for the
      directory, `None` when the directory does not exist. */
  function ListPythonFiles(listing: Option<seq<string>>): (r: Result<seq<string>>)
    ensures listing.None? <==> r == Err(FileNotFoundError)
    ensures listing.Some? ==> r.Ok? && r.value == PythonEntries(listing.value)
  {
    match listing
    case None => Err(FileNotFoundError)
    case Some(names) => Ok(PythonEntries(names))
  }
}
