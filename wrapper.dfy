/** The wrapper resolvers of src/wrapper.rs: for a recognised wrapper command (sudo, ssh,
    scp, rsync, env, kubectl exec, and the pass-through wrappers nice, nohup, time, strace,
    ltrace) they extract the inner command line and/or the remote host.

    The scanners over the argument list are written as the loops they are in the source
    and each is proved equal to a specification function. Four of them (sudo, env, the
    pass-through wrappers, and ssh's search for the host) share one shape: every token is
    classified as a value-taking option (it and the next token are skipped), a flag or an
    assignment (it alone is skipped), or the first word (the scan stops). That shape is
    `CommandStart`, parameterised by a `Scanner` that holds each family's exact tables. */
module Wrapper {
  import opened Common
  import opened Types
  import Shell

  // ---------------------------------------------------------------------------------
  // Per-family option tables

  /** sudo options whose value is the next token. */
  const SudoOptsWithArgs: seq<string> :=
    ["-g", "-p", "-r", "-t", "-u", "-T", "-C", "-h", "-U",
     "--group", "--prompt", "--role", "--type", "--user",
     "--other-user", "--timeout", "--close-from", "--host"]

  /** A sudo short-option cluster ending in one of these letters takes the next token. */
  const SudoClusterValueChars: set<char> := {'g', 'p', 'r', 't', 'u', 'T', 'C', 'h', 'U'}

  /** ssh options whose value is the next token when written alone. */
  const SshOptsWithArgs: seq<string> :=
    ["-b", "-c", "-D", "-E", "-e", "-F", "-I", "-i", "-J", "-L", "-l", "-m", "-O", "-o", "-p",
     "-Q", "-R", "-S", "-W", "-w"]

  /** env options whose value is the next token. */
  const EnvOptsWithArgs: seq<string> := ["-u", "--unset", "-C", "--chdir", "-S", "--split-string"]

  /** The pass-through wrappers handled by one scanner. */
  const SimpleWrappers: seq<string> := ["nice", "nohup", "time", "strace", "ltrace"]

  /** Value-taking options of each pass-through wrapper; nohup (and any other name) has none. */
  function SimpleOptsWithArgs(name: string): seq<string> {
    if name == "nice" then ["-n", "--adjustment"]
    else if name == "time" then ["-o", "-f", "--output", "--format"]
    else if name == "strace" then ["-e", "-o", "-p", "-s", "-u", "-E"]
    else if name == "ltrace" then ["-e", "-o", "-p", "-s", "-u", "-n"]
    else []
  }

  /** Every command name the dispatcher recognises, the inline shells included. */
  const KnownWrappers: seq<string> :=
    ["sudo", "ssh", "scp", "rsync", "env", "kubectl"] + SimpleWrappers + Shell.ShellNames

  // ---------------------------------------------------------------------------------
  // The shared prefix scan

  /** How a scan treats one token: the value-taking option together with its value, a
      single skipped token, or the first word, where the scan stops. */
  datatype Step = Consume | Skip | Start

  /** One scanner per family whose loop looks for a first word. */
  datatype Scanner = SudoScan | EnvScan | SimpleScan(opts: seq<string>) | SshScan

  /** The classification each loop body applies to a token while it is still scanning,
      branch for branch as in the source. */
  function StepOf(s: Scanner, arg: string): (r: Step)
    ensures r == Consume ==> IsFlag(arg)
    ensures r == Start <==> !IsFlag(arg) && !(s.EnvScan? && '=' in arg && !StartsWith(arg, "="))
  {
    match s
    case SudoScan =>
      if arg in SudoOptsWithArgs then Consume
      else if StartsWith(arg, "-") then
        if |arg| > 2 && !StartsWith(arg, "--") && arg[|arg| - 1] in SudoClusterValueChars then Consume
        else Skip
      else Start
    case EnvScan =>
      if arg in EnvOptsWithArgs then Consume
      else if StartsWith(arg, "-") then Skip
      else if '=' in arg && !StartsWith(arg, "=") then Skip
      else Start
    case SimpleScan(opts) =>
      if StartsWith(arg, "-") then
        var opt := if '=' in arg then BeforeFirst(arg, '=') else arg;
        if opt in opts && '=' !in arg then Consume else Skip
      else Start
    case SshScan =>
      if StartsWith(arg, "-") then
        var opt := if |arg| > 2 then arg[..2] else arg;
        if opt in SshOptsWithArgs && |arg| == 2 then Consume else Skip
      else Start
  }

  /** Index of the first word of `args` when scanning starts at position `i`. */
  function CommandStart(s: Scanner, args: seq<string>, i: nat): (k: Option<nat>)
    ensures k.Some? ==> i <= k.value < |args| && StepOf(s, args[k.value]) == Start
    decreases |args| - i
  {
    if |args| <= i then None
    else
      match StepOf(s, args[i])
      case Start => Some(i)
      case Skip => CommandStart(s, args, i + 1)
      case Consume => CommandStart(s, args, i + 2)
  }

  /** Position `j` is examined by the scan that starts at `i`. */
  ghost predicate Reaches(s: Scanner, args: seq<string>, i: nat, j: nat)
    decreases j - i
  {
    i == j ||
    (i < j && i < |args| &&
     match StepOf(s, args[i])
     case Start => false
     case Skip => Reaches(s, args, i + 1, j)
     case Consume => Reaches(s, args, i + 2, j))
  }

  /** The first word found is exactly a word that the scan reaches. */
  lemma {:induction false} StartIsReachedWord(s: Scanner, args: seq<string>, i: nat, k: nat)
    ensures CommandStart(s, args, i) == Some(k) <==>
            (Reaches(s, args, i, k) && k < |args| && StepOf(s, args[k]) == Start)
    decreases |args| - i
  {
    if i < |args| && i != k {
      match StepOf(s, args[i])
      case Start =>
      case Skip => StartIsReachedWord(s, args, i + 1, k);
      case Consume => StartIsReachedWord(s, args, i + 2, k);
    }
  }

  /** The value of a value-taking option is never examined, so it is never taken as the
      start of the inner command. */
  lemma {:induction false} OptionValueNeverStarts(s: Scanner, args: seq<string>, i: nat, j: nat)
    requires Reaches(s, args, i, j) && j < |args| && StepOf(s, args[j]) == Consume
    ensures !Reaches(s, args, i, j + 1)
    ensures CommandStart(s, args, i) != Some(j + 1)
    decreases j - i
  {
    if i < j {
      match StepOf(s, args[i])
      case Start =>
      case Skip => OptionValueNeverStarts(s, args, i + 1, j);
      case Consume => OptionValueNeverStarts(s, args, i + 2, j);
    }
    StartIsReachedWord(s, args, i, j + 1);
  }

  /** A word preceded only by skipped tokens is never swallowed: it is the start. */
  lemma {:induction false} FirstWordWins(s: Scanner, args: seq<string>, i: nat, k: nat)
    requires i <= k < |args| && StepOf(s, args[k]) == Start
    requires forall j :: i <= j < k ==> StepOf(s, args[j]) == Skip
    ensures CommandStart(s, args, i) == Some(k)
    decreases k - i
  {
    if i < k {
      FirstWordWins(s, args, i + 1, k);
    }
  }

  /** Every word before the start (or anywhere, when there is none) directly follows a
      value-taking option: only options and their values are passed over. */
  lemma {:induction false} OnlyOptionsPrecedeCommand(s: Scanner, args: seq<string>, i: nat)
    requires i <= |args|
    ensures var end := match CommandStart(s, args, i) case Some(k) => k case None => |args|;
            forall j :: i <= j < end ==>
              StepOf(s, args[j]) != Start || (i < j && StepOf(s, args[j - 1]) == Consume)
    decreases |args| - i
  {
    if i < |args| {
      match StepOf(s, args[i])
      case Start =>
      case Skip => OnlyOptionsPrecedeCommand(s, args, i + 1);
      case Consume =>
        if i + 2 <= |args| {
          OnlyOptionsPrecedeCommand(s, args, i + 2);
        }
    }
  }

  /** Tokens after the start cannot move it. */
  lemma {:induction false} CommandStartIgnoresSuffix(s: Scanner, args: seq<string>, more: seq<string>, i: nat)
    requires CommandStart(s, args, i).Some?
    ensures CommandStart(s, args + more, i) == CommandStart(s, args, i)
    decreases |args| - i
  {
    assert (args + more)[i] == args[i];
    match StepOf(s, args[i])
    case Start =>
    case Skip => CommandStartIgnoresSuffix(s, args, more, i + 1);
    case Consume => CommandStartIgnoresSuffix(s, args, more, i + 2);
  }

  /** The result of a wrapper whose inner command is everything from the first word on
      (sudo, env, the pass-through wrappers); no first word means no match. */
  function PrefixResult(s: Scanner, tag: string, args: seq<string>): Option<UnwrapResult> {
    match CommandStart(s, args, 0)
    case None => None
    case Some(k) => Some(UnwrapResult(Some(Join(args[k..])), None, tag))
  }

  /** The result for ssh: the first word is the host, without any `user@` part, and the
      words after it form the inner command. ssh always matches. */
  function SshResult(args: seq<string>): Option<UnwrapResult> {
    match CommandStart(SshScan, args, 0)
    case None => Some(UnwrapResult(None, None, "ssh"))
    case Some(k) =>
      var rest := args[k + 1..];
      Some(UnwrapResult(if rest == [] then None else Some(Join(rest)), Some(AfterFirst(args[k], '@')), "ssh"))
  }

  // ---------------------------------------------------------------------------------
  // The loops of the source

  /** The state of a scanning loop after `i` tokens. Before the first word, nothing is
      collected and the scan resumes at the next unexamined position (one further on when
      the previous token took a value). After it, `start` is the first word and `parts`
      holds the tokens from `start + drop` up to `i` (ssh drops the host, `drop == 1`). */
  ghost predicate ScanInv(s: Scanner, args: seq<string>, drop: nat, i: nat, skipNext: bool, found: bool,
                          start: nat, parts: seq<string>)
  {
    && i <= |args|
    && (!found ==>
          parts == [] && CommandStart(s, args, 0) == CommandStart(s, args, if skipNext then i + 1 else i))
    && (found ==>
          && !skipNext && start < i && start + drop <= i && parts == args[start + drop..i]
          && CommandStart(s, args, 0) == Some(start))
  }

  /** The token after a value-taking option is passed over. */
  lemma ScanSkipValue(s: Scanner, args: seq<string>, drop: nat, i: nat, start: nat)
    requires i < |args| && ScanInv(s, args, drop, i, true, false, start, [])
    ensures ScanInv(s, args, drop, i + 1, false, false, start, [])
  {
  }

  /** After the first word every token is collected. */
  lemma ScanCollect(s: Scanner, args: seq<string>, drop: nat, i: nat, start: nat, parts: seq<string>)
    requires i < |args| && ScanInv(s, args, drop, i, false, true, start, parts)
    ensures ScanInv(s, args, drop, i + 1, false, true, start, parts + [args[i]])
  {
    assert args[start + drop..i + 1] == args[start + drop..i] + [args[i]];
  }

  /** An option is passed over, and takes the next token when it is value-taking. */
  lemma ScanOption(s: Scanner, args: seq<string>, drop: nat, i: nat, start: nat)
    requires i < |args| && ScanInv(s, args, drop, i, false, false, start, [])
    requires StepOf(s, args[i]) != Start
    ensures ScanInv(s, args, drop, i + 1, StepOf(s, args[i]) == Consume, false, start, [])
  {
  }

  /** The first word starts the collection (ssh keeps it aside as the host). */
  lemma ScanFirstWord(s: Scanner, args: seq<string>, drop: nat, i: nat, start: nat)
    requires i < |args| && drop <= 1 && ScanInv(s, args, drop, i, false, false, start, [])
    requires StepOf(s, args[i]) == Start
    ensures ScanInv(s, args, drop, i + 1, false, true, i, if drop == 0 then [args[i]] else [])
  {
    assert args[i..i + 1] == [args[i]];
  }

  /** At the end of the loop the flags tell whether there is a first word, and the
      collected tokens are the whole suffix after it. */
  lemma ScanDone(s: Scanner, args: seq<string>, drop: nat, skipNext: bool, found: bool,
                 start: nat, parts: seq<string>)
    requires ScanInv(s, args, drop, |args|, skipNext, found, start, parts)
    ensures found <==> CommandStart(s, args, 0).Some?
    ensures !found ==> parts == []
    ensures found ==> CommandStart(s, args, 0) == Some(start) && parts == args[start + drop..]
  {
  }

  /** `unwrap_sudo`. */
  method UnwrapSudo(cmd: Command) returns (r: Option<UnwrapResult>)
    ensures r == PrefixResult(SudoScan, "sudo", cmd.args)
  {
    var args := cmd.args;
    var innerParts: seq<string> := [];
    var skipNext := false;
    var foundCommand := false;
    ghost var start: nat := 0;
    for i := 0 to |args|
      invariant ScanInv(SudoScan, args, 0, i, skipNext, foundCommand, start, innerParts)
    {
      var arg := args[i];
      if skipNext {
        ScanSkipValue(SudoScan, args, 0, i, start);
        skipNext := false;
      } else if foundCommand {
        ScanCollect(SudoScan, args, 0, i, start, innerParts);
        innerParts := innerParts + [arg];
      } else if arg in SudoOptsWithArgs {
        ScanOption(SudoScan, args, 0, i, start);
        skipNext := true;
      } else if StartsWith(arg, "-") {
        ScanOption(SudoScan, args, 0, i, start);
        if |arg| > 2 && !StartsWith(arg, "--") {
          var lastChar := arg[|arg| - 1];
          if lastChar in SudoClusterValueChars {
            skipNext := true;
          }
        }
        assert skipNext == (StepOf(SudoScan, arg) == Consume);
      } else {
        ScanFirstWord(SudoScan, args, 0, i, start);
        foundCommand := true;
        start := i;
        innerParts := innerParts + [arg];
      }
    }
    ScanDone(SudoScan, args, 0, skipNext, foundCommand, start, innerParts);
    if innerParts == [] {
      return None;
    }
    return Some(UnwrapResult(Some(Join(innerParts)), None, "sudo"));
  }

  /** `unwrap_ssh`. */
  method UnwrapSsh(cmd: Command) returns (r: Option<UnwrapResult>)
    ensures r == SshResult(cmd.args)
  {
    var args := cmd.args;
    var host: Option<string> := None;
    var innerParts: seq<string> := [];
    var skipNext := false;
    var foundHost := false;
    ghost var hostAt: nat := 0;
    for i := 0 to |args|
      invariant ScanInv(SshScan, args, 1, i, skipNext, foundHost, hostAt, innerParts)
      invariant !foundHost ==> host == None
      invariant foundHost ==> hostAt < |args| && host == Some(AfterFirst(args[hostAt], '@'))
    {
      var arg := args[i];
      if skipNext {
        ScanSkipValue(SshScan, args, 1, i, hostAt);
        skipNext := false;
      } else if !foundHost {
        if StartsWith(arg, "-") {
          ScanOption(SshScan, args, 1, i, hostAt);
          var opt := if |arg| > 2 then arg[..2] else arg;
          if opt in SshOptsWithArgs {
            if |arg| == 2 {
              skipNext := true;
            }
          }
          assert skipNext == (StepOf(SshScan, arg) == Consume);
        } else {
          ScanFirstWord(SshScan, args, 1, i, hostAt);
          foundHost := true;
          hostAt := i;
          host := Some(AfterFirst(arg, '@'));
        }
      } else {
        ScanCollect(SshScan, args, 1, i, hostAt, innerParts);
        innerParts := innerParts + [arg];
      }
    }
    ScanDone(SshScan, args, 1, skipNext, foundHost, hostAt, innerParts);
    var inner := if innerParts == [] then None else Some(Join(innerParts));
    return Some(UnwrapResult(inner, host, "ssh"));
  }

  /** `unwrap_env`. */
  method UnwrapEnv(cmd: Command) returns (r: Option<UnwrapResult>)
    ensures r == PrefixResult(EnvScan, "env", cmd.args)
  {
    var args := cmd.args;
    var innerParts: seq<string> := [];
    var skipNext := false;
    var foundCommand := false;
    ghost var start: nat := 0;
    for i := 0 to |args|
      invariant ScanInv(EnvScan, args, 0, i, skipNext, foundCommand, start, innerParts)
    {
      var arg := args[i];
      if skipNext {
        ScanSkipValue(EnvScan, args, 0, i, start);
        skipNext := false;
      } else if foundCommand {
        ScanCollect(EnvScan, args, 0, i, start, innerParts);
        innerParts := innerParts + [arg];
      } else if arg in EnvOptsWithArgs {
        ScanOption(EnvScan, args, 0, i, start);
        skipNext := true;
      } else if StartsWith(arg, "-") {
        // a flag
        ScanOption(EnvScan, args, 0, i, start);
      } else if '=' in arg && !StartsWith(arg, "=") {
        // a NAME=VALUE assignment
        ScanOption(EnvScan, args, 0, i, start);
      } else {
        ScanFirstWord(EnvScan, args, 0, i, start);
        foundCommand := true;
        start := i;
        innerParts := innerParts + [arg];
      }
    }
    ScanDone(EnvScan, args, 0, skipNext, foundCommand, start, innerParts);
    if innerParts == [] {
      return None;
    }
    return Some(UnwrapResult(Some(Join(innerParts)), None, "env"));
  }

  /** `unwrap_simple_wrapper` (nice, nohup, time, strace, ltrace). */
  method UnwrapSimpleWrapper(cmd: Command) returns (r: Option<UnwrapResult>)
    ensures r == PrefixResult(SimpleScan(SimpleOptsWithArgs(cmd.name)), cmd.name, cmd.args)
  {
    var args := cmd.args;
    var optsWithArgs := SimpleOptsWithArgs(cmd.name);
    ghost var s := SimpleScan(optsWithArgs);
    var innerParts: seq<string> := [];
    var skipNext := false;
    var foundCommand := false;
    ghost var start: nat := 0;
    for i := 0 to |args|
      invariant ScanInv(s, args, 0, i, skipNext, foundCommand, start, innerParts)
    {
      var arg := args[i];
      if skipNext {
        ScanSkipValue(s, args, 0, i, start);
        skipNext := false;
      } else if foundCommand {
        ScanCollect(s, args, 0, i, start, innerParts);
        innerParts := innerParts + [arg];
      } else if StartsWith(arg, "-") {
        ScanOption(s, args, 0, i, start);
        var opt := if '=' in arg then BeforeFirst(arg, '=') else arg;
        if opt in optsWithArgs && '=' !in arg {
          skipNext := true;
        }
        assert skipNext == (StepOf(s, arg) == Consume);
      } else {
        ScanFirstWord(s, args, 0, i, start);
        foundCommand := true;
        start := i;
        innerParts := innerParts + [arg];
      }
    }
    ScanDone(s, args, 0, skipNext, foundCommand, start, innerParts);
    if innerParts == [] {
      return None;
    }
    return Some(UnwrapResult(Some(Join(innerParts)), None, cmd.name));
  }

  // ---------------------------------------------------------------------------------
  // scp and rsync: the first argument that names a remote host

  datatype CopyTool = Scp | Rsync

  /** The host an argument names, if it is not an option and has a `host:` part that
      does not look local. scp strips `user@` before the local-path test, rsync after. */
  function HostCandidate(t: CopyTool, arg: string): Option<string> {
    if StartsWith(arg, "-") then None
    else
      match IndexOf(arg, ':')
      case None => None
      case Some(colon) =>
        var beforeColon := arg[..colon];
        match t
        case Scp =>
          var h := AfterFirst(beforeColon, '@');
          if !StartsWith(h, "/") && !StartsWith(h, ".") then Some(h) else None
        case Rsync =>
          if StartsWith(beforeColon, "/") || StartsWith(beforeColon, ".") then None
          else Some(AfterFirst(beforeColon, '@'))
  }

  /** What one argument contributes: only a non-dash argument with a colon names a host,
      the host is a colon-free tail of the text before the first colon, an scp host is
      never a local path, and a plain `host:path` names its host for both tools. */
  lemma HostCandidateShape(t: CopyTool, arg: string)
    ensures var r := HostCandidate(t, arg);
            r.Some? ==> !IsFlag(arg) && ':' in arg && ':' !in r.value && EndsWith(BeforeFirst(arg, ':'), r.value)
    ensures var r := HostCandidate(t, arg);
            t == Scp && r.Some? ==> !StartsWith(r.value, "/") && !StartsWith(r.value, ".")
  {
    if !IsFlag(arg) && ':' in arg {
      var before := BeforeFirst(arg, ':');
      assert before == arg[..IndexOf(arg, ':').value];
      var h := AfterFirst(before, '@');
      assert before[|before| - |h|..] == h;
      assert forall c :: c in h ==> c in before;
    }
  }

  /** A plain `host:path` argument, with no user part and not a local path, names its
      host for both tools. */
  lemma PlainHostCandidate(t: CopyTool, arg: string)
    requires !IsFlag(arg) && ':' in arg
    requires var before := BeforeFirst(arg, ':');
             '@' !in before && !StartsWith(before, "/") && !StartsWith(before, ".")
    ensures HostCandidate(t, arg) == Some(BeforeFirst(arg, ':'))
  {
    var before := BeforeFirst(arg, ':');
    assert before == arg[..IndexOf(arg, ':').value];
    assert AfterFirst(before, '@') == before;
  }

  /** The first host candidate among the arguments. */
  function CopyHost(t: CopyTool, args: seq<string>): Option<string> {
    if args == [] then None
    else
      match HostCandidate(t, args[0])
      case Some(h) => Some(h)
      case None => CopyHost(t, args[1..])
  }

  /** scp and rsync always match; they never carry an inner command. */
  function CopyResult(t: CopyTool, args: seq<string>): Option<UnwrapResult> {
    Some(UnwrapResult(None, CopyHost(t, args), if t == Scp then "scp" else "rsync"))
  }

  /** The host is the candidate of the first argument that has one. */
  lemma {:induction false} CopyHostIsFirstCandidate(t: CopyTool, args: seq<string>)
    ensures CopyHost(t, args).None? <==> forall j :: 0 <= j < |args| ==> HostCandidate(t, args[j]).None?
    ensures CopyHost(t, args).Some? ==>
      exists k :: 0 <= k < |args| && HostCandidate(t, args[k]) == CopyHost(t, args) &&
        forall j :: 0 <= j < k ==> HostCandidate(t, args[j]).None?
  {
    if args != [] {
      CopyHostIsFirstCandidate(t, args[1..]);
      assert forall j :: 1 <= j < |args| ==> args[j] == args[1..][j - 1];
      if HostCandidate(t, args[0]).None? && CopyHost(t, args).Some? {
        var k :| 0 <= k < |args[1..]| && HostCandidate(t, args[1..][k]) == CopyHost(t, args[1..]) &&
          forall j :: 0 <= j < k ==> HostCandidate(t, args[1..][j]).None?;
        assert HostCandidate(t, args[k + 1]) == CopyHost(t, args);
      }
    }
  }

  /** An scp host never looks like a local path, and no host contains a colon. */
  lemma {:induction false} CopyHostShape(t: CopyTool, args: seq<string>)
    requires CopyHost(t, args).Some?
    ensures ':' !in CopyHost(t, args).value
    ensures t == Scp ==> !StartsWith(CopyHost(t, args).value, "/") && !StartsWith(CopyHost(t, args).value, ".")
  {
    CopyHostIsFirstCandidate(t, args);
    var k :| 0 <= k < |args| && HostCandidate(t, args[k]) == CopyHost(t, args);
    var arg := args[k];
    var colon := IndexOf(arg, ':').value;
    var beforeColon := arg[..colon];
    assert ':' !in beforeColon;
    var h := AfterFirst(beforeColon, '@');
    assert forall c :: c in h ==> c in beforeColon;
  }

  /** `unwrap_scp`. */
  method UnwrapScp(cmd: Command) returns (r: Option<UnwrapResult>)
    ensures r == CopyResult(Scp, cmd.args)
  {
    var args := cmd.args;
    var host: Option<string> := None;
    for i := 0 to |args|
      invariant host == None && CopyHost(Scp, args) == CopyHost(Scp, args[i..])
    {
      assert args[i..][1..] == args[i + 1..];
      var arg := args[i];
      if !StartsWith(arg, "-") {
        var colonPos := IndexOf(arg, ':');
        if colonPos.Some? {
          var beforeColon := arg[..colonPos.value];
          var h := AfterFirst(beforeColon, '@');
          if !StartsWith(h, "/") && !StartsWith(h, ".") {
            host := Some(h);
            break;
          }
        }
      }
    }
    return Some(UnwrapResult(None, host, "scp"));
  }

  /** `unwrap_rsync`. */
  method UnwrapRsync(cmd: Command) returns (r: Option<UnwrapResult>)
    ensures r == CopyResult(Rsync, cmd.args)
  {
    var args := cmd.args;
    var host: Option<string> := None;
    for i := 0 to |args|
      invariant host == None && CopyHost(Rsync, args) == CopyHost(Rsync, args[i..])
    {
      assert args[i..][1..] == args[i + 1..];
      var arg := args[i];
      if !StartsWith(arg, "-") {
        var colonPos := IndexOf(arg, ':');
        if colonPos.Some? {
          var beforeColon := arg[..colonPos.value];
          if !(StartsWith(beforeColon, "/") || StartsWith(beforeColon, ".")) {
            host := Some(AfterFirst(beforeColon, '@'));
            break;
          }
        }
      }
    }
    return Some(UnwrapResult(None, host, "rsync"));
  }

  // ---------------------------------------------------------------------------------
  // kubectl exec

  /** `unwrap_kubectl`: only `kubectl exec` matches; the inner command is what follows the
      first `--`, absent when there is no `--` or nothing after it. */
  function UnwrapKubectl(args: seq<string>): (r: Option<UnwrapResult>)
    ensures r.Some? <==> |args| > 0 && args[0] == "exec"
    ensures r.Some? ==> r.value.host.None? && r.value.wrapper == "kubectl exec"
    ensures r.Some? ==> (r.value.innerCommand.Some? <==> "--" in args[..|args| - 1])
    ensures r.Some? && r.value.innerCommand.Some? ==>
      exists p :: 0 <= p < |args| - 1 && args[p] == "--" && "--" !in args[..p] &&
        r.value.innerCommand.value == Join(args[p + 1..])
  {
    if |args| == 0 || args[0] != "exec" then None
    else
      var inner :=
        match IndexOf(args, "--")
        case Some(pos) =>
          var innerParts := args[pos + 1..];
          if innerParts == [] then None else Some(Join(innerParts))
        case None => None;
      assert IndexOf(args, "--").Some? ==> args[..IndexOf(args, "--").value] <= args[..|args| - 1];
      assert "--" in args[..|args| - 1] ==> "--" in args;
      Some(UnwrapResult(inner, None, "kubectl exec"))
  }

  // ---------------------------------------------------------------------------------
  // Properties of the individual families

  /** A token that does not begin with `-` (and, for env, has no `=`) is a first word
      for every scanner. */
  lemma WordStep(s: Scanner, w: string)
    requires |w| > 0 && w[0] != '-' && '=' !in w
    ensures StepOf(s, w) == Start
  {
    NotStartsWith(w, "-", 0);
    assert forall o :: o in SudoOptsWithArgs + EnvOptsWithArgs ==> |o| > 0 && o[0] == '-';
    assert w !in SudoOptsWithArgs + EnvOptsWithArgs;
  }

  /** `sudo ls -la` and `sudo -A -u root ls`. */
  lemma SudoExamples()
    ensures PrefixResult(SudoScan, "sudo", ["ls", "-la"]) == Some(UnwrapResult(Some("ls -la"), None, "sudo"))
    ensures PrefixResult(SudoScan, "sudo", ["-A", "-u", "root", "ls"]) == Some(UnwrapResult(Some("ls"), None, "sudo"))
  {
    var a := ["ls", "-la"];
    WordStep(SudoScan, a[0]);
    assert CommandStart(SudoScan, a, 0) == Some(0);
    assert a[0..] == a;
    JoinSmall("ls", "-la", "");
    assert Join(a[0..]) == "ls -la";
    assert PrefixResult(SudoScan, "sudo", a) == Some(UnwrapResult(Some("ls -la"), None, "sudo"));
    var b := ["-A", "-u", "root", "ls"];
    assert StepOf(SudoScan, b[0]) == Skip;
    assert StepOf(SudoScan, b[1]) == Consume;
    WordStep(SudoScan, b[3]);
    assert CommandStart(SudoScan, b, 3) == Some(3);
    assert CommandStart(SudoScan, b, 0) == Some(3);
    assert b[3..] == ["ls"];
    JoinSmall("ls", "", "");
  }

  /** Only the last letter of a short-option cluster is checked: in `-uA root ls` the
      value of `-u` is taken as the command. */
  lemma SudoClusterChecksOnlyLastLetter()
    ensures PrefixResult(SudoScan, "sudo", ["-uA", "root", "ls"]) == Some(UnwrapResult(Some("root ls"), None, "sudo"))
  {
    var a := ["-uA", "root", "ls"];
    NotStartsWith(a[0], "--", 1);
    assert a[0] !in SudoOptsWithArgs;
    assert StepOf(SudoScan, a[0]) == Skip;
    WordStep(SudoScan, a[1]);
    assert CommandStart(SudoScan, a, 1) == Some(1);
    assert CommandStart(SudoScan, a, 0) == Some(1);
    assert a[1..] == ["root", "ls"];
    JoinSmall("root", "ls", "");
    assert Join(a[1..]) == "root ls";
  }

  /** An inline value whose last letter is a value-taking letter swallows the next token:
      `sudo -uroot rm -rf /` unwraps to `/`. */
  lemma SudoInlineValueSwallowsCommand()
    ensures PrefixResult(SudoScan, "sudo", ["-uroot", "rm", "-rf", "/"]) == Some(UnwrapResult(Some("/"), None, "sudo"))
  {
    var a := ["-uroot", "rm", "-rf", "/"];
    NotStartsWith(a[0], "--", 1);
    assert StepOf(SudoScan, a[0]) == Consume;
    assert StepOf(SudoScan, a[2]) == Skip;
    WordStep(SudoScan, a[3]);
    assert CommandStart(SudoScan, a, 3) == Some(3);
    assert CommandStart(SudoScan, a, 0) == Some(3);
    assert a[3..] == ["/"];
    JoinSmall("/", "", "");
  }

  /** An ssh option consumes the next token only when written alone, never in the inline
      form such as `-p22`. */
  lemma SshInlineValueNotConsumed(arg: string)
    ensures StepOf(SshScan, arg) == Consume <==> arg in SshOptsWithArgs
  {
    if arg in SshOptsWithArgs {
      assert |arg| == 2 && arg[..1] == "-";
    }
  }

  /** ssh always matches, even with no host. */
  lemma SshAlwaysMatches(args: seq<string>)
    ensures SshResult(args).Some?
    ensures CommandStart(SshScan, args, 0).None? ==> SshResult(args) == Some(UnwrapResult(None, None, "ssh"))
  {
  }

  /** `ssh user@host ls -la`. */
  lemma SshUserHostExample()
    ensures SshResult(["user@host", "ls", "-la"]) == Some(UnwrapResult(Some("ls -la"), Some("host"), "ssh"))
  {
    var a := ["user@host", "ls", "-la"];
    WordStep(SshScan, a[0]);
    assert CommandStart(SshScan, a, 0) == Some(0);
    assert a[1..] == ["ls", "-la"];
    JoinSmall("ls", "-la", "");
    assert Join(a[1..]) == "ls -la";
    UserHostExample(a[0]);
  }

  /** `ssh -p 22 -i key.pem host whoami`: both options consume their values. */
  lemma SshOptionsExample()
    ensures SshResult(["-p", "22", "-i", "key.pem", "host", "whoami"]) == Some(UnwrapResult(Some("whoami"), Some("host"), "ssh"))
  {
    var b := ["-p", "22", "-i", "key.pem", "host", "whoami"];
    assert StartsWith(b[0], "-") && StartsWith(b[2], "-");
    assert StepOf(SshScan, b[0]) == Consume;
    assert StepOf(SshScan, b[2]) == Consume;
    WordStep(SshScan, b[4]);
    assert CommandStart(SshScan, b, 4) == Some(4);
    assert CommandStart(SshScan, b, 2) == Some(4);
    assert CommandStart(SshScan, b, 0) == Some(4);
    assert b[5..] == ["whoami"];
    JoinSmall("whoami", "", "");
    assert '@' !in b[4];
    assert AfterFirst(b[4], '@') == "host";
  }

  /** `user@host:/path/` names the host `host` for scp. (Arguments are passed in rather
      than written as literals so that the solver does not evaluate the search functions
      on constants.) */
  lemma ScpHostExample(arg: string)
    requires arg == "user@host:/path/"
    ensures HostCandidate(Scp, arg) == Some("host")
  {
    IndexOfAt(arg, ':', 9);
    UserHostExample(arg[..9]);
    ScpCandidate(arg, 9, "host");
  }

  /** `user@host` without its user part is `host`. */
  lemma UserHostExample(before: string)
    requires before == "user@host"
    ensures AfterFirst(before, '@') == "host"
  {
    IndexOfAt(before, '@', 4);
  }

  /** An argument whose part before the first colon, without `user@`, does not start with
      `/` or `.` names that host for scp. */
  lemma ScpCandidate(arg: string, colon: nat, h: string)
    requires |arg| > 0 && arg[0] != '-'
    requires IndexOf(arg, ':') == Some(colon)
    requires AfterFirst(arg[..colon], '@') == h && |h| > 0 && h[0] != '/' && h[0] != '.'
    ensures HostCandidate(Scp, arg) == Some(h)
  {
    NotStartsWith(arg, "-", 0);
    NotStartsWith(h, "/", 0);
    NotStartsWith(h, ".", 0);
  }

  /** `scp file.txt user@host:/path/` copies to `host`. */
  lemma ScpExample(local: string, remote: string)
    requires local == "file.txt" && remote == "user@host:/path/"
    ensures CopyResult(Scp, [local, remote]) == Some(UnwrapResult(None, Some("host"), "scp"))
  {
    assert ':' !in local;
    assert HostCandidate(Scp, local) == None;
    ScpHostExample(remote);
    assert [local, remote][1..] == [remote];
    assert CopyHost(Scp, [remote]) == Some("host");
  }

  /** An argument of the form `user@./x:y` is local for scp, which strips `user@` before
      the local-path test, but names the host `./x` for rsync, which tests first. */
  lemma CopyLocalTestOrder(arg: string)
    requires arg == "user@./x:y"
    ensures CopyHost(Scp, [arg]) == None
    ensures CopyHost(Rsync, [arg]) == Some("./x")
  {
    NotStartsWith(arg, "-", 0);
    IndexOfAt(arg, ':', 8);
    UserDotExample(arg[..8]);
    NotStartsWith(arg[..8], "/", 0);
    NotStartsWith(arg[..8], ".", 0);
    assert HostCandidate(Scp, arg) == None;
    assert HostCandidate(Rsync, arg) == Some("./x");
    assert [arg][1..] == [];
  }

  /** `user@./x` without its user part is `./x`, which starts with `.`. */
  lemma UserDotExample(before: string)
    requires before == "user@./x"
    ensures AfterFirst(before, '@') == "./x" && StartsWith("./x", ".")
  {
    IndexOfAt(before, '@', 4);
  }

  /** `env VAR=1 rm -rf /tmp`. */
  lemma EnvAssignmentExample()
    ensures PrefixResult(EnvScan, "env", ["VAR=1", "rm", "-rf", "/tmp"]) == Some(UnwrapResult(Some("rm -rf /tmp"), None, "env"))
  {
    var a := ["VAR=1", "rm", "-rf", "/tmp"];
    NotStartsWith(a[0], "-", 0);
    NotStartsWith(a[0], "=", 0);
    assert StepOf(EnvScan, a[0]) == Skip;
    WordStep(EnvScan, a[1]);
    assert CommandStart(EnvScan, a, 1) == Some(1);
    assert CommandStart(EnvScan, a, 0) == Some(1);
    assert a[1..] == ["rm", "-rf", "/tmp"];
    JoinSmall("rm", "-rf", "/tmp");
    assert Join(a[1..]) == "rm -rf /tmp";
  }

  /** A token starting with `=` is not an assignment: `env -u HOME =x ls` runs `=x`. */
  lemma EnvEqualsSignExample()
    ensures PrefixResult(EnvScan, "env", ["-u", "HOME", "=x", "ls"]) == Some(UnwrapResult(Some("=x ls"), None, "env"))
  {
    var b := ["-u", "HOME", "=x", "ls"];
    assert StepOf(EnvScan, b[0]) == Consume;
    NotStartsWith(b[2], "-", 0);
    assert StartsWith(b[2], "=");
    assert StepOf(EnvScan, b[2]) == Start;
    assert CommandStart(EnvScan, b, 2) == Some(2);
    assert CommandStart(EnvScan, b, 0) == Some(2);
    assert b[2..] == ["=x", "ls"];
    JoinSmall("=x", "ls", "");
    assert Join(b[2..]) == "=x ls";
  }

  /** A dash token containing `=` never consumes the next token. */
  lemma SimpleAssignmentNotConsumed(opts: seq<string>, arg: string)
    requires '=' in arg
    ensures StepOf(SimpleScan(opts), arg) != Consume
  {
  }

  /** `nice -n 10 ls -la`. */
  lemma NiceExample()
    ensures PrefixResult(SimpleScan(SimpleOptsWithArgs("nice")), "nice", ["-n", "10", "ls", "-la"])
            == Some(UnwrapResult(Some("ls -la"), None, "nice"))
  {
    var a := ["-n", "10", "ls", "-la"];
    var nice := SimpleScan(SimpleOptsWithArgs("nice"));
    assert SimpleOptsWithArgs("nice") == ["-n", "--adjustment"];
    assert StartsWith(a[0], "-") && '=' !in a[0];
    assert StepOf(nice, a[0]) == Consume;
    WordStep(nice, a[2]);
    assert CommandStart(nice, a, 2) == Some(2);
    assert CommandStart(nice, a, 0) == Some(2);
    assert a[2..] == ["ls", "-la"];
    JoinSmall("ls", "-la", "");
    assert Join(a[2..]) == "ls -la";
  }

  /** nohup has no value-taking options, so `nohup -n 10 ls` runs `10`. */
  lemma NohupExample()
    ensures PrefixResult(SimpleScan(SimpleOptsWithArgs("nohup")), "nohup", ["-n", "10", "ls"])
            == Some(UnwrapResult(Some("10 ls"), None, "nohup"))
  {
    var b := ["-n", "10", "ls"];
    var nohup := SimpleScan(SimpleOptsWithArgs("nohup"));
    assert SimpleOptsWithArgs("nohup") == [];
    assert StartsWith(b[0], "-");
    assert StepOf(nohup, b[0]) == Skip;
    WordStep(nohup, b[1]);
    assert CommandStart(nohup, b, 1) == Some(1);
    assert CommandStart(nohup, b, 0) == Some(1);
    assert b[1..] == ["10", "ls"];
    JoinSmall("10", "ls", "");
    assert Join(b[1..]) == "10 ls";
  }

  /** With no value-taking options the command starts at the first non-flag token. */
  lemma {:induction false} NoValueOptionsFirstWord(args: seq<string>, i: nat)
    requires i <= |args|
    ensures match CommandStart(SimpleScan([]), args, i)
            case Some(k) => !IsFlag(args[k]) && forall j :: i <= j < k ==> IsFlag(args[j])
            case None => forall j :: i <= j < |args| ==> IsFlag(args[j])
    decreases |args| - i
  {
    if i < |args| {
      if IsFlag(args[i]) {
        NoValueOptionsFirstWord(args, i + 1);
      }
    }
  }

  /** `kubectl exec mypod -- ls -la`. */
  lemma KubectlExecExample(a: seq<string>)
    requires a == ["exec", "mypod", "--", "ls", "-la"]
    ensures UnwrapKubectl(a) == Some(UnwrapResult(Some("ls -la"), None, "kubectl exec"))
  {
    assert a[2] == "--" && "--" !in a[..2];
    IndexOfAt(a, "--", 2);
    assert a[3..] == ["ls", "-la"];
    JoinSmall("ls", "-la", "");
    assert Join(a[3..]) == "ls -la";
  }

  /** `kubectl exec mypod` carries no inner command; `kubectl get pods` does not match. */
  lemma KubectlOtherExamples()
    ensures UnwrapKubectl(["exec", "mypod"]) == Some(UnwrapResult(None, None, "kubectl exec"))
    ensures UnwrapKubectl(["get", "pods"]) == None
  {
    var b := ["exec", "mypod"];
    assert "--" !in b;
    assert IndexOf(b, "--") == None;
  }

  // ---------------------------------------------------------------------------------
  // Dispatch

  /** `unwrap_command`, also routing sh, bash and zsh to the inline-shell resolver. */
  function Unwrapped(cmd: Command): Option<UnwrapResult> {
    var args := cmd.args;
    if cmd.name == "sudo" then PrefixResult(SudoScan, "sudo", args)
    else if cmd.name == "ssh" then SshResult(args)
    else if cmd.name == "scp" then CopyResult(Scp, args)
    else if cmd.name == "rsync" then CopyResult(Rsync, args)
    else if cmd.name == "env" then PrefixResult(EnvScan, "env", args)
    else if cmd.name == "kubectl" then UnwrapKubectl(args)
    else if cmd.name in SimpleWrappers then PrefixResult(SimpleScan(SimpleOptsWithArgs(cmd.name)), cmd.name, args)
    else if cmd.name in Shell.ShellNames then Shell.Unwrap(cmd)
    else None
  }

  /** `unwrap_command`. */
  method UnwrapCommand(cmd: Command) returns (r: Option<UnwrapResult>)
    ensures r == Unwrapped(cmd)
  {
    if cmd.name == "sudo" {
      r := UnwrapSudo(cmd);
    } else if cmd.name == "ssh" {
      r := UnwrapSsh(cmd);
    } else if cmd.name == "scp" {
      r := UnwrapScp(cmd);
    } else if cmd.name == "rsync" {
      r := UnwrapRsync(cmd);
    } else if cmd.name == "env" {
      r := UnwrapEnv(cmd);
    } else if cmd.name == "kubectl" {
      r := UnwrapKubectl(cmd.args);
    } else if cmd.name in SimpleWrappers {
      r := UnwrapSimpleWrapper(cmd);
    } else if cmd.name in Shell.ShellNames {
      r := Shell.Unwrap(cmd);
    } else {
      r := None;
    }
  }

  /** Only the listed wrapper names ever match. */
  lemma UnwrapOnlyKnownNames(cmd: Command)
    ensures Unwrapped(cmd).Some? ==> cmd.name in KnownWrappers
  {
  }

  /** A host is extracted only by ssh, scp and rsync, and only ssh has both a host and
      an inner command. */
  lemma HostOnlyFromRemoteWrappers(cmd: Command)
    ensures Unwrapped(cmd).Some? && Unwrapped(cmd).value.host.Some? ==> cmd.name in ["ssh", "scp", "rsync"]
    ensures Unwrapped(cmd).Some? && Unwrapped(cmd).value.host.Some? && Unwrapped(cmd).value.innerCommand.Some?
            ==> cmd.name == "ssh"
  {
  }
}
