/** The rm classifier of src/rm.rs: `rm` is allowed outright when every file operand
    resolves strictly inside `/tmp/` or inside the project directory; in every other case
    the classifier stays silent and normal rule handling applies. The external `realpath`
    call and `Path::parent` are the `PathOps` parameter. */
module Rm {
  import opened Common
  import opened Types

  const RmReason := "rm in /tmp or project dir"

  /** Every character is a slash (true of the empty string). */
  predicate AllSlashes(s: string) {
    forall i :: 0 <= i < |s| ==> s[i] == '/'
  }

  /** The /tmp rule of `is_under_allowed_dir`: starts with `/tmp/` and the rest is
      non-empty and not made of slashes only. */
  predicate TmpRule(resolved: string) {
    StartsWith(resolved, "/tmp/") && resolved[5..] != [] && !AllSlashes(resolved[5..])
  }

  /** The /tmp rule accepts exactly the paths below `/tmp/` that name something other
      than `/tmp` itself: some character after the fifth is not a slash. */
  lemma TmpRuleMeansStrictlyInside(resolved: string)
    ensures TmpRule(resolved) <==>
            StartsWith(resolved, "/tmp/") && exists i :: 5 <= i < |resolved| && resolved[i] != '/'
  {
    if StartsWith(resolved, "/tmp/") {
      var after := resolved[5..];
      if !AllSlashes(after) {
        var i :| 0 <= i < |after| && after[i] != '/';
        assert resolved[5 + i] != '/';
      }
      if exists i :: 5 <= i < |resolved| && resolved[i] != '/' {
        var i :| 5 <= i < |resolved| && resolved[i] != '/';
        assert after[i - 5] != '/';
      }
    }
  }

  /** `/tmp` followed by nothing but slashes (`/tmp`, `/tmp/`, `/tmp//`, ...) is never
      accepted by the /tmp rule. */
  lemma TmpRootRejected(resolved: string)
    requires StartsWith(resolved, "/tmp") && AllSlashes(resolved[4..])
    ensures !TmpRule(resolved)
  {
    if StartsWith(resolved, "/tmp/") {
      forall i | 0 <= i < |resolved[5..]|
        ensures resolved[5..][i] == '/'
      {
        assert resolved[5..][i] == resolved[4..][i + 1];
      }
    }
  }

  /** The project directory with exactly one `/` added unless it already ends in one. */
  function CwdPrefix(cwd: string): (p: string)
    ensures EndsWith(p, "/") && StartsWith(p, cwd)
    ensures |p| == if EndsWith(cwd, "/") then |cwd| else |cwd| + 1
  {
    if EndsWith(cwd, "/") then cwd else cwd + "/"
  }

  /** The project rule of `is_under_allowed_dir`. */
  predicate ProjectRule(resolved: string, cwd: string) {
    StartsWith(resolved, CwdPrefix(cwd))
  }

  /** A path is under the project directory iff it extends the directory and, unless the
      directory already ends in a slash, continues with a slash: a sibling such as
      `/work/project2` of `/work/project` is not inside it. */
  lemma ProjectRuleMeansInside(resolved: string, cwd: string)
    ensures ProjectRule(resolved, cwd) <==>
            StartsWith(resolved, cwd) && (EndsWith(cwd, "/") || (|resolved| > |cwd| && resolved[|cwd|] == '/'))
  {
    var p := CwdPrefix(cwd);
    if !EndsWith(cwd, "/") {
      assert p == cwd + "/";
      if StartsWith(resolved, p) {
        assert resolved[..|cwd|] == p[..|cwd|];
        assert resolved[|cwd|] == p[|cwd|];
      }
      if StartsWith(resolved, cwd) && |resolved| > |cwd| && resolved[|cwd|] == '/' {
        assert resolved[..|p|] == resolved[..|cwd|] + [resolved[|cwd|]];
      }
    }
  }

  /** Writing the directory with or without its trailing slash makes no difference. */
  lemma ProjectRuleSlashInsensitive(resolved: string, cwd: string)
    requires !EndsWith(cwd, "/")
    ensures ProjectRule(resolved, cwd) == ProjectRule(resolved, cwd + "/")
  {
    assert EndsWith(cwd + "/", "/");
  }

  /** An empty project directory, or `/`, admits every absolute path. */
  lemma RootProjectAdmitsEverything(resolved: string)
    requires StartsWith(resolved, "/")
    ensures ProjectRule(resolved, "") && ProjectRule(resolved, "/")
  {
    assert CwdPrefix("") == "/";
    assert EndsWith("/", "/");
  }

  /** `is_under_allowed_dir`. */
  function IsUnderAllowedDir(resolved: string, initialCwd: Option<string>): (b: bool)
    ensures TmpRule(resolved) ==> b
    ensures initialCwd.None? ==> (b <==> TmpRule(resolved))
    ensures initialCwd.Some? && !TmpRule(resolved) ==> (b <==> ProjectRule(resolved, initialCwd.value))
  {
    if StartsWith(resolved, "/tmp/") && resolved[5..] != [] && !AllSlashes(resolved[5..]) then true
    else
      match initialCwd
      case Some(cwd) => StartsWith(resolved, CwdPrefix(cwd))
      case None => false
  }

  /** Knowing the project directory only ever widens what is allowed. */
  lemma AllowedWithoutCwdAllowedWithAny(resolved: string, cwd: Option<string>)
    requires IsUnderAllowedDir(resolved, None)
    ensures IsUnderAllowedDir(resolved, cwd)
  {
  }

  /** `is_safe_path`. */
  function IsSafePath(ops: PathOps, path: string, initialCwd: Option<string>): (b: bool)
    ensures !SanePath(path) ==> !b
    ensures b <==> SanePath(path) && exists r :: DecidingPath(ops, path, r) && IsUnderAllowedDir(r, initialCwd)
  {
    if path == [] then false
    else if '\0' in path || '\n' in path then false
    else
      match ops.resolve(path)
      case Some(resolved) =>
        assert DecidingPath(ops, path, resolved);
        IsUnderAllowedDir(resolved, initialCwd)
      case None =>
        match ops.parent(path)
        case Some(parentStr) =>
          if parentStr != [] then
            match ops.resolve(parentStr)
            case Some(resolvedParent) =>
              assert DecidingPath(ops, path, resolvedParent);
              IsUnderAllowedDir(resolvedParent, initialCwd)
            case None => false
          else false
        case None => false
  }

  /** When the path itself resolves, its parent is never consulted. */
  lemma ResolvedPathDecides(ops: PathOps, path: string, initialCwd: Option<string>, r: string)
    requires SanePath(path) && ops.resolve(path) == Some(r)
    ensures IsSafePath(ops, path, initialCwd) == IsUnderAllowedDir(r, initialCwd)
  {
  }

  /** When neither the path nor a non-empty parent resolves, the path is unsafe. */
  lemma UnresolvableIsUnsafe(ops: PathOps, path: string, initialCwd: Option<string>)
    requires ops.resolve(path).None?
    requires ops.parent(path).None? || ops.parent(path).value == [] || ops.resolve(ops.parent(path).value).None?
    ensures !IsSafePath(ops, path, initialCwd)
  {
  }

  /** The early-exit loop over the file operands: all are safe. */
  function AllSafe(ops: PathOps, files: seq<string>, initialCwd: Option<string>): (b: bool)
    ensures b <==> forall k :: 0 <= k < |files| ==> IsSafePath(ops, files[k], initialCwd)
  {
    if files == [] then true
    else if !IsSafePath(ops, files[0], initialCwd) then false
    else
      assert forall k :: 1 <= k < |files| ==> files[k] == files[1..][k - 1];
      AllSafe(ops, files[1..], initialCwd)
  }

  /** `check_rm`: Allow when the command is `rm`, it names at least one file operand, and
      every file operand is safe; otherwise no verdict. It never asks or denies. */
  function CheckRm(ops: PathOps, cmd: Command, initialCwd: Option<string>): (r: Option<PermissionResult>)
    ensures r.Some? <==>
            && cmd.name == "rm"
            && (exists a :: a in cmd.args && !IsFlag(a))
            && (forall a :: a in cmd.args && !IsFlag(a) ==> IsSafePath(ops, a, initialCwd))
    ensures r.Some? ==> r.value == PermissionResult(Allow, RmReason, None)
  {
    if cmd.name != "rm" then None
    else
      var fileArgs := NonFlagArgs(cmd.args);
      if fileArgs == [] then
        assert forall a :: a in cmd.args ==> IsFlag(a);
        None
      else
        assert fileArgs[0] in cmd.args && !IsFlag(fileArgs[0]);
        if !AllSafe(ops, fileArgs, initialCwd) then None
        else Some(PermissionResult(Allow, RmReason, None))
  }

  /** rm with one file in `/tmp/` and one in a home directory gets no verdict when both
      resolve to themselves and the project directory, if any, does not contain the home
      path. */
  lemma MixedPathsExample(ops: PathOps, cmd: Command, initialCwd: Option<string>)
    requires cmd.name == "rm" && cmd.args == ["/tmp/a", "/home/user/b"]
    requires ops.resolve("/tmp/a") == Some("/tmp/a") && ops.resolve("/home/user/b") == Some("/home/user/b")
    requires initialCwd.None? || !ProjectRule("/home/user/b", initialCwd.value)
    ensures CheckRm(ops, cmd, initialCwd) == None
  {
    var home := cmd.args[1];
    NotStartsWith(home, "-", 0);
    NotStartsWith(home, "/tmp/", 1);
    assert SanePath(home);
    assert !IsSafePath(ops, home, initialCwd);
  }

  /** `rm -rf /tmp/mydir/subdir` in `/tmp` is allowed when the path resolves to itself. */
  lemma TmpSubdirExample(ops: PathOps, cmd: Command)
    requires cmd.name == "rm" && cmd.args == ["-rf", "/tmp/mydir/subdir"]
    requires ops.resolve("/tmp/mydir/subdir") == Some("/tmp/mydir/subdir")
    ensures CheckRm(ops, cmd, None) == Some(PermissionResult(Allow, RmReason, None))
  {
    var path := cmd.args[1];
    TmpSubdirPath(path);
    assert IsSafePath(ops, path, None);
    assert StartsWith(cmd.args[0], "-");
    assert forall a :: a in cmd.args && !IsFlag(a) ==> a == path;
  }

  /** `/tmp/mydir/subdir` is a sane file operand that passes the /tmp rule. */
  lemma TmpSubdirPath(path: string)
    requires path == "/tmp/mydir/subdir"
    ensures !IsFlag(path) && SanePath(path) && TmpRule(path)
  {
    NotStartsWith(path, "-", 0);
    assert path[5..][0] != '/';
  }

  /** `rm -rf /tmp` gets no verdict even though `/tmp` resolves to itself. */
  lemma TmpItselfExample(ops: PathOps, cmd: Command, initialCwd: Option<string>)
    requires cmd.name == "rm" && cmd.args == ["-rf", "/tmp"]
    requires ops.resolve("/tmp") == Some("/tmp")
    requires initialCwd.None? || !ProjectRule("/tmp", initialCwd.value)
    ensures CheckRm(ops, cmd, initialCwd) == None
  {
    var path := cmd.args[1];
    assert path[4..] == [];
    TmpRootRejected(path);
    assert !IsSafePath(ops, path, initialCwd);
  }

  /** A build artefact under the project directory is allowed when it resolves to
      itself. */
  lemma ProjectFileExample(ops: PathOps, cmd: Command, cwd: string)
    requires cwd == "/work/project" && cmd.name == "rm" && cmd.args == ["/work/project/target/debug/test"]
    requires ops.resolve(cmd.args[0]) == Some(cmd.args[0])
    ensures CheckRm(ops, cmd, Some(cwd)) == Some(PermissionResult(Allow, RmReason, None))
  {
    var inside := cmd.args[0];
    ProjectFilePath(inside, cwd);
    assert IsSafePath(ops, inside, Some(cwd));
  }

  /** `/work/project/target/debug/test` is a sane file operand inside `/work/project`. */
  lemma ProjectFilePath(path: string, cwd: string)
    requires cwd == "/work/project" && path == "/work/project/target/debug/test"
    ensures !IsFlag(path) && SanePath(path) && ProjectRule(path, cwd)
  {
    NotStartsWith(path, "-", 0);
    assert cwd[|cwd| - 1..] != "/" by {
      assert cwd[|cwd| - 1..][0] != '/';
    }
    assert path[..|cwd| + 1] == cwd + "/";
  }

  /** A file outside both `/tmp/` and the project directory gets no verdict when it
      resolves to itself. */
  lemma OutsideProjectExample(ops: PathOps, cmd: Command, cwd: string)
    requires cwd == "/work/project" && cmd.name == "rm" && cmd.args == ["/var/other/file"]
    requires ops.resolve(cmd.args[0]) == Some(cmd.args[0])
    ensures CheckRm(ops, cmd, Some(cwd)) == None
  {
    var outside := cmd.args[0];
    NotStartsWith(outside, "-", 0);
    assert SanePath(outside);
    NotStartsWith(outside, "/tmp/", 1);
    NotStartsWith(outside, CwdPrefix(cwd), 1);
    assert !IsSafePath(ops, outside, Some(cwd));
  }
}
