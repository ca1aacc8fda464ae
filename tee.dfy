/** The tee classifier of src/tee.rs: `tee` is allowed outright when it writes to no file
    or only to files that resolve strictly inside `/tmp/`; otherwise the classifier stays
    silent. The project directory plays no part. */
module Tee {
  import opened Common
  import opened Types
  import Rm

  const NoFileReason := "tee with no output file"
  const TmpReason := "tee to /tmp"

  /** `is_under_tmp`, branch for branch. */
  function IsUnderTmp(resolved: string): (b: bool)
    ensures b <==> StartsWith(resolved, "/tmp/") && exists i :: 5 <= i < |resolved| && resolved[i] != '/'
  {
    Rm.TmpRuleMeansStrictlyInside(resolved);
    if !StartsWith(resolved, "/tmp/") then
      // The source tests for `/tmp` itself here and rejects it, like every other path.
      false
    else
      var after := resolved[5..];
      if after == [] then false
      else if Rm.AllSlashes(after) then false
      else true
  }

  /** tee's test is exactly rm's /tmp rule. */
  lemma IsUnderTmpIsTmpRule(resolved: string)
    ensures IsUnderTmp(resolved) <==> Rm.TmpRule(resolved)
  {
  }

  /** Whatever the project directory, a location tee accepts is one rm accepts. */
  lemma IsUnderTmpImpliesAllowedDir(resolved: string, initialCwd: Option<string>)
    requires IsUnderTmp(resolved)
    ensures Rm.IsUnderAllowedDir(resolved, initialCwd)
  {
  }

  /** `is_safe_tmp_path`. */
  function IsSafeTmpPath(ops: PathOps, path: string): (b: bool)
    ensures !SanePath(path) ==> !b
    ensures b <==> SanePath(path) && exists r :: DecidingPath(ops, path, r) && Rm.TmpRule(r)
  {
    if path == [] then false
    else if '\0' in path || '\n' in path then false
    else
      match ops.resolve(path)
      case Some(resolved) =>
        assert DecidingPath(ops, path, resolved);
        IsUnderTmp(resolved)
      case None =>
        match ops.parent(path)
        case Some(parentStr) =>
          if parentStr != [] then
            match ops.resolve(parentStr)
            case Some(resolvedParent) =>
              assert DecidingPath(ops, path, resolvedParent);
              IsUnderTmp(resolvedParent)
            case None => false
          else false
        case None => false
  }

  /** A path tee may write is a path rm may delete, for every project directory. */
  lemma SafeForTeeSafeForRm(ops: PathOps, path: string, initialCwd: Option<string>)
    requires IsSafeTmpPath(ops, path)
    ensures Rm.IsSafePath(ops, path, initialCwd)
  {
    var r :| DecidingPath(ops, path, r) && Rm.TmpRule(r);
    assert Rm.IsUnderAllowedDir(r, initialCwd);
  }

  /** The early-exit loop over the output files: all are safe. */
  function AllSafeTmp(ops: PathOps, files: seq<string>): (b: bool)
    ensures b <==> forall k :: 0 <= k < |files| ==> IsSafeTmpPath(ops, files[k])
  {
    if files == [] then true
    else if !IsSafeTmpPath(ops, files[0]) then false
    else
      assert forall k :: 1 <= k < |files| ==> files[k] == files[1..][k - 1];
      AllSafeTmp(ops, files[1..])
  }

  /** `check_tee`. The project directory is accepted and ignored, as in the source. */
  function CheckTee(ops: PathOps, cmd: Command, initialCwd: Option<string>): (r: Option<PermissionResult>)
    ensures cmd.name != "tee" ==> r.None?
    ensures cmd.name == "tee" && (forall a :: a in cmd.args ==> IsFlag(a)) ==>
              r == Some(PermissionResult(Allow, NoFileReason, None))
    ensures cmd.name == "tee" && (exists a :: a in cmd.args && !IsFlag(a)) ==>
              && (r.Some? <==> forall a :: a in cmd.args && !IsFlag(a) ==> IsSafeTmpPath(ops, a))
              && (r.Some? ==> r.value == PermissionResult(Allow, TmpReason, None))
    ensures r.Some? ==> r.value.permission == Allow
  {
    if cmd.name != "tee" then None
    else
      var fileArgs := NonFlagArgs(cmd.args);
      if fileArgs == [] then
        Some(PermissionResult(Allow, NoFileReason, None))
      else
        assert fileArgs[0] in cmd.args && !IsFlag(fileArgs[0]);
        if !AllSafeTmp(ops, fileArgs) then None
        else Some(PermissionResult(Allow, TmpReason, None))
  }

  /** The verdict does not depend on the project directory. */
  lemma CheckTeeIgnoresCwd(ops: PathOps, cmd: Command, cwd1: Option<string>, cwd2: Option<string>)
    ensures CheckTee(ops, cmd, cwd1) == CheckTee(ops, cmd, cwd2)
  {
  }

  /** Whenever tee is allowed to write files, rm would be allowed to delete the same
      files, whatever the project directory. */
  lemma TeeAllowedImpliesRmAllowed(ops: PathOps, cmd: Command, initialCwd: Option<string>)
    requires CheckTee(ops, cmd, initialCwd) == Some(PermissionResult(Allow, TmpReason, None))
    ensures Rm.CheckRm(ops, Command("rm", cmd.args, cmd.text), initialCwd).Some?
  {
    assert exists a :: a in cmd.args && !IsFlag(a);
    forall a | a in cmd.args && !IsFlag(a)
      ensures Rm.IsSafePath(ops, a, initialCwd)
    {
      SafeForTeeSafeForRm(ops, a, initialCwd);
    }
  }

  /** `tee -a /tmp/test.log` is allowed when the path resolves to itself. */
  lemma AppendExample(ops: PathOps, cmd: Command)
    requires cmd.name == "tee" && cmd.args == ["-a", "/tmp/test.log"]
    requires ops.resolve("/tmp/test.log") == Some("/tmp/test.log")
    ensures CheckTee(ops, cmd, None) == Some(PermissionResult(Allow, TmpReason, None))
  {
    var path := cmd.args[1];
    NotStartsWith(path, "-", 0);
    assert StartsWith(cmd.args[0], "-");
    assert path[5] != '/';
    assert IsUnderTmp(path);
    assert SanePath(path);
    assert IsSafeTmpPath(ops, path);
    assert forall a :: a in cmd.args && !IsFlag(a) ==> a == path;
  }

  /** `tee /home/user/file.log` gets no verdict when the path resolves to itself. */
  lemma HomeExample(ops: PathOps, cmd: Command)
    requires cmd.name == "tee" && cmd.args == ["/home/user/file.log"]
    requires ops.resolve("/home/user/file.log") == Some("/home/user/file.log")
    ensures CheckTee(ops, cmd, None) == None
  {
    var path := cmd.args[0];
    NotStartsWith(path, "-", 0);
    NotStartsWith(path, "/tmp/", 1);
    assert SanePath(path);
    assert !IsSafeTmpPath(ops, path);
  }
}
