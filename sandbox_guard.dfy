/** src/utils/sandbox_guard.py: the sandbox is whatever `abspath("sandbox")`
    resolves to, and a path is safe when its absolute form starts with that
    text.  `abspath` (which depends on the working directory) is a parameter. */
module SandboxGuard {
  import opened Wrappers
  import opened Text

  /** The absolute path of the sandbox directory `sandbox`. */
  function SandboxDir(abspath: string -> string): string {
    abspath("sandbox")
  }

  /** `is_path_safe`: a raw string-prefix test, not a path-component test. */
  predicate IsPathSafe(abspath: string -> string, path: string) {
    StartsWith(abspath(path), SandboxDir(abspath))
  }

  /** `get_absolute_safe_path`: the absolute path, or `PermissionError`. */
  function GetAbsoluteSafePath(abspath: string -> string, path: string): (r: Result<string>)
    ensures r.Ok? <==> IsPathSafe(abspath, path)
    ensures r.Ok? ==> r.value == abspath(path) && StartsWith(r.value, SandboxDir(abspath))
    ensures r.Err? ==> r.error == PermissionError
  {
    if !IsPathSafe(abspath, path) then Err(PermissionError) else Ok(abspath(path))
  }

  /** Every path whose absolute form extends `SANDBOX_DIR` as text is safe,
      `SANDBOX_DIR` itself included. */
  lemma ExtensionIsSafe(abspath: string -> string, path: string, rest: string)
    requires abspath(path) == SandboxDir(abspath) + rest
    ensures IsPathSafe(abspath, path)
    ensures GetAbsoluteSafePath(abspath, path) == Ok(SandboxDir(abspath) + rest)
  {
    assert (SandboxDir(abspath) + rest)[..|SandboxDir(abspath)|] == SandboxDir(abspath);
  }

  /** Because the test is textual, a sibling directory sharing the prefix
      (`/x/sandbox2` next to `/x/sandbox`) is accepted. */
  lemma SiblingAccepted(abspath: string -> string, path: string)
    requires SandboxDir(abspath) == "/x/sandbox"
    requires abspath(path) == "/x/sandbox2/f"
    ensures IsPathSafe(abspath, path)
  {
    ExtensionIsSafe(abspath, path, "2/f");
  }

  /** A path whose absolute form is shorter than the sandbox, or differs from
      it somewhere in the first |SANDBOX_DIR| characters, is refused. */
  lemma OutsideRefused(abspath: string -> string, path: string, i: nat)
    requires i < |SandboxDir(abspath)|
    requires i >= |abspath(path)| || abspath(path)[i] != SandboxDir(abspath)[i]
    ensures GetAbsoluteSafePath(abspath, path) == Err(PermissionError)
  {
    if |SandboxDir(abspath)| <= |abspath(path)| {
      assert abspath(path)[..|SandboxDir(abspath)|][i] == abspath(path)[i];
    }
  }
}
