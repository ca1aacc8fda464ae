/** The aggregator of src/main.rs: a command line is tokenised into simple commands, each
    command is checked (a wrapper is unwrapped and its inner command line analysed in turn,
    a remote host is checked against the host rules), and the most restrictive verdict
    wins. The tokenizer and the rule store are parameters; `depth` bounds how many
    wrapper layers are unwrapped. */
module Hook {
  import opened Common
  import opened Types
  import Wrapper
  import Rm
  import Tee

  /** What the tokenizer reports for a command line. */
  datatype Analysis = Analysis(success: bool, error: Option<string>, commands: seq<Command>)

  /** `analyzer::analyze`. */
  type Tokenizer = string -> Analysis

  /** The rule store: `check_command(name, args)` and
      `check_command_with_host(name, args, host)`. */
  datatype Config = Config(
    check: (string, seq<string>) -> PermissionResult,
    checkWithHost: (string, seq<string>, Option<string>) -> PermissionResult)

  const NoCommandsReason := "No commands found"
  const TooDeepReason := "wrapper nesting too deep"

  /** The starting value of the fold: `PermissionResult::default()` with Allow. */
  const Initial := PermissionResult(Allow, "", None)

  /** One step of the fold: a result replaces the accumulator only when strictly more
      restrictive. */
  function Pick(acc: PermissionResult, r: PermissionResult): PermissionResult {
    if Rank(r.permission) > Rank(acc.permission) then r else acc
  }

  /** The loop of `analyze_command` over the per-command results, as a left fold. */
  function Fold(rs: seq<PermissionResult>): PermissionResult {
    if rs == [] then Initial else Pick(Fold(rs[..|rs| - 1]), rs[|rs| - 1])
  }

  // ---------------------------------------------------------------------------------
  // Specification: `analyze_command` and `check_single_command` as functions

  /** `analyze_command`. */
  function Analyze(tok: Tokenizer, config: Config, command: string, depth: nat): PermissionResult
    decreases depth, 2
  {
    var analysis := tok(command);
    if !analysis.success then PermissionResult(Ask, analysis.error.GetOr(""), None)
    else if analysis.commands == [] then PermissionResult(Allow, NoCommandsReason, None)
    else Fold(Verdicts(tok, config, analysis.commands, depth))
  }

  /** The result of `check_single_command` for each command, in order. */
  function Verdicts(tok: Tokenizer, config: Config, cmds: seq<Command>, depth: nat): (rs: seq<PermissionResult>)
    ensures |rs| == |cmds|
    decreases depth, 1, |cmds|
  {
    if cmds == [] then []
    else Verdicts(tok, config, cmds[..|cmds| - 1], depth) + [CheckSingle(tok, config, cmds[|cmds| - 1], depth)]
  }

  /** `check_single_command`. At depth 0 an inner command is not analysed and the
      verdict is Ask. */
  function CheckSingle(tok: Tokenizer, config: Config, cmd: Command, depth: nat): PermissionResult
    decreases depth, 0
  {
    match Wrapper.Unwrapped(cmd)
    case Some(u) =>
      if u.innerCommand.Some? then
        if depth == 0 then PermissionResult(Ask, TooDeepReason, None)
        else
          var innerResult := Analyze(tok, config, u.innerCommand.value, depth - 1);
          if u.host.Some? then
            var hostResult := config.checkWithHost(cmd.name, cmd.args, u.host);
            if Rank(hostResult.permission) > Rank(innerResult.permission) then hostResult else innerResult
          else innerResult
      else if u.host.Some? then config.checkWithHost(cmd.name, cmd.args, u.host)
      else config.check(cmd.name, cmd.args)
    case None => config.check(cmd.name, cmd.args)
  }

  // ---------------------------------------------------------------------------------
  // The source's loop and recursion, proved against the specification

  /** `analyze_command`. */
  method AnalyzeCommand(tok: Tokenizer, config: Config, command: string, depth: nat) returns (r: PermissionResult)
    ensures r == Analyze(tok, config, command, depth)
    decreases depth, 1
  {
    var analysis := tok(command);
    if !analysis.success {
      return PermissionResult(Ask, analysis.error.GetOr(""), None);
    }
    if analysis.commands == [] {
      return PermissionResult(Allow, NoCommandsReason, None);
    }
    var cmds := analysis.commands;
    var mostRestrictive := Initial;
    for i := 0 to |cmds|
      invariant mostRestrictive == Fold(Verdicts(tok, config, cmds[..i], depth))
    {
      var result := CheckSingleCommand(tok, config, cmds[i], depth);
      assert cmds[..i + 1][..i] == cmds[..i];
      assert Verdicts(tok, config, cmds[..i + 1], depth) == Verdicts(tok, config, cmds[..i], depth) + [result];
      if Rank(result.permission) > Rank(mostRestrictive.permission) {
        mostRestrictive := result;
      }
    }
    assert cmds[..|cmds|] == cmds;
    return mostRestrictive;
  }

  /** `check_single_command`. */
  method CheckSingleCommand(tok: Tokenizer, config: Config, cmd: Command, depth: nat) returns (r: PermissionResult)
    ensures r == CheckSingle(tok, config, cmd, depth)
    decreases depth, 0
  {
    var unwrapped := Wrapper.UnwrapCommand(cmd);
    if unwrapped.Some? {
      var u := unwrapped.value;
      if u.innerCommand.Some? {
        if depth == 0 {
          return PermissionResult(Ask, TooDeepReason, None);
        }
        var innerResult := AnalyzeCommand(tok, config, u.innerCommand.value, depth - 1);
        if u.host.Some? {
          var hostResult := config.checkWithHost(cmd.name, cmd.args, u.host);
          if Rank(hostResult.permission) > Rank(innerResult.permission) {
            return hostResult;
          }
        }
        return innerResult;
      } else if u.host.Some? {
        return config.checkWithHost(cmd.name, cmd.args, u.host);
      }
    }
    return config.check(cmd.name, cmd.args);
  }

  // ---------------------------------------------------------------------------------
  // The fold is the maximum, and ties keep the earliest result

  /** The fold's rank is the largest rank of any result (Allow for none), and the fold is
      the first result of that rank, or the initial value when every result is Allow. */
  lemma {:induction false} FoldIsEarliestMaximum(rs: seq<PermissionResult>)
    ensures forall k :: 0 <= k < |rs| ==> Rank(rs[k].permission) <= Rank(Fold(rs).permission)
    ensures Fold(rs) == Initial ||
            exists k ::
              && 0 <= k < |rs| && Fold(rs) == rs[k]
              && forall j :: 0 <= j < k ==> Rank(rs[j].permission) < Rank(rs[k].permission)
    ensures Fold(rs) != Initial ==> Rank(Fold(rs).permission) > 0
  {
    if rs != [] {
      var front := rs[..|rs| - 1];
      var last := rs[|rs| - 1];
      FoldIsEarliestMaximum(front);
      assert forall k :: 0 <= k < |front| ==> rs[k] == front[k];
      if Rank(last.permission) > Rank(Fold(front).permission) {
        assert Fold(rs) == last;
        assert forall j :: 0 <= j < |rs| - 1 ==> Rank(rs[j].permission) < Rank(last.permission);
      } else {
        assert Fold(rs) == Fold(front);
        if Fold(front) != Initial {
          var k :| 0 <= k < |front| && Fold(front) == front[k] &&
            forall j :: 0 <= j < k ==> Rank(front[j].permission) < Rank(front[k].permission);
          assert Fold(rs) == rs[k];
        }
      }
    }
  }

  /** When every command is allowed, the verdict is the bare initial value: Allow with an
      empty reason, whatever reasons the individual results gave. */
  lemma {:induction false} FoldAllAllowed(rs: seq<PermissionResult>)
    requires forall k :: 0 <= k < |rs| ==> rs[k].permission == Allow
    ensures Fold(rs) == Initial
  {
    if rs != [] {
      var front := rs[..|rs| - 1];
      assert forall k :: 0 <= k < |front| ==> front[k] == rs[k];
      FoldAllAllowed(front);
    }
  }

  /** The result for each command sits at its own position. */
  lemma {:induction false} VerdictsAt(tok: Tokenizer, config: Config, cmds: seq<Command>, depth: nat)
    ensures forall k :: 0 <= k < |cmds| ==>
              Verdicts(tok, config, cmds, depth)[k] == CheckSingle(tok, config, cmds[k], depth)
    decreases |cmds|
  {
    if cmds != [] {
      var front := cmds[..|cmds| - 1];
      VerdictsAt(tok, config, front, depth);
      assert forall k :: 0 <= k < |front| ==> front[k] == cmds[k];
    }
  }

  /** `analyze_command`'s outcomes: Ask with the diagnostic when tokenising fails; Allow
      with "No commands found" for no commands; otherwise the most restrictive of the
      per-command results, which is the first result of that rank (or Allow with an
      empty reason when all are Allow). */
  lemma AnalyzeOutcomes(tok: Tokenizer, config: Config, command: string, depth: nat)
    ensures !tok(command).success ==>
              Analyze(tok, config, command, depth) == PermissionResult(Ask, tok(command).error.GetOr(""), None)
    ensures tok(command).success && tok(command).commands == [] ==>
              Analyze(tok, config, command, depth) == PermissionResult(Allow, NoCommandsReason, None)
    ensures var cmds := tok(command).commands;
            var r := Analyze(tok, config, command, depth);
            tok(command).success && cmds != [] ==>
              && (forall k :: 0 <= k < |cmds| ==>
                    Rank(CheckSingle(tok, config, cmds[k], depth).permission) <= Rank(r.permission))
              && (r == Initial ||
                  exists k ::
                    && 0 <= k < |cmds| && r == CheckSingle(tok, config, cmds[k], depth)
                    && forall j :: 0 <= j < k ==>
                         Rank(CheckSingle(tok, config, cmds[j], depth).permission) < Rank(r.permission))
  {
    var cmds := tok(command).commands;
    if tok(command).success && cmds != [] {
      var rs := Verdicts(tok, config, cmds, depth);
      VerdictsAt(tok, config, cmds, depth);
      FoldIsEarliestMaximum(rs);
    }
  }

  /** One denied command denies the whole line. */
  lemma OneDenyDenies(tok: Tokenizer, config: Config, command: string, depth: nat, k: nat)
    requires tok(command).success && k < |tok(command).commands|
    requires CheckSingle(tok, config, tok(command).commands[k], depth).permission == Deny
    ensures Analyze(tok, config, command, depth).permission == Deny
  {
    AnalyzeOutcomes(tok, config, command, depth);
  }

  /** A line whose commands are all allowed is allowed with an empty reason. */
  lemma AllAllowedLine(tok: Tokenizer, config: Config, command: string, depth: nat)
    requires tok(command).success && tok(command).commands != []
    requires forall k :: 0 <= k < |tok(command).commands| ==>
               CheckSingle(tok, config, tok(command).commands[k], depth).permission == Allow
    ensures Analyze(tok, config, command, depth) == Initial
  {
    var cmds := tok(command).commands;
    VerdictsAt(tok, config, cmds, depth);
    FoldAllAllowed(Verdicts(tok, config, cmds, depth));
  }

  // ---------------------------------------------------------------------------------
  // `check_single_command`'s cases

  /** A command that is not a wrapper, or a wrapper that yields neither an inner command
      nor a host, is checked against the rules under its own name. */
  lemma PlainCommandUsesRules(tok: Tokenizer, config: Config, cmd: Command, depth: nat)
    requires Wrapper.Unwrapped(cmd).None? ||
             (Wrapper.Unwrapped(cmd).value.innerCommand.None? && Wrapper.Unwrapped(cmd).value.host.None?)
    ensures CheckSingle(tok, config, cmd, depth) == config.check(cmd.name, cmd.args)
  {
  }

  /** A wrapper with a host and no inner command (scp, rsync, ssh alone) is checked
      against the host rules. */
  lemma HostOnlyUsesHostRules(tok: Tokenizer, config: Config, cmd: Command, depth: nat)
    requires Wrapper.Unwrapped(cmd).Some?
    requires Wrapper.Unwrapped(cmd).value.innerCommand.None? && Wrapper.Unwrapped(cmd).value.host.Some?
    ensures CheckSingle(tok, config, cmd, depth) ==
            config.checkWithHost(cmd.name, cmd.args, Wrapper.Unwrapped(cmd).value.host)
  {
  }

  /** With both an inner command and a host, the host result is taken only when it is
      strictly more restrictive; the verdict is never less restrictive than either. */
  lemma HostWinsOnlyWhenStricter(tok: Tokenizer, config: Config, cmd: Command, depth: nat)
    requires depth > 0 && Wrapper.Unwrapped(cmd).Some?
    requires Wrapper.Unwrapped(cmd).value.innerCommand.Some? && Wrapper.Unwrapped(cmd).value.host.Some?
    ensures var u := Wrapper.Unwrapped(cmd).value;
            var innerResult := Analyze(tok, config, u.innerCommand.value, depth - 1);
            var hostResult := config.checkWithHost(cmd.name, cmd.args, u.host);
            var r := CheckSingle(tok, config, cmd, depth);
            && (r == hostResult || r == innerResult)
            && (r == hostResult && r != innerResult ==> Rank(hostResult.permission) > Rank(innerResult.permission))
            && Rank(r.permission) >= Rank(innerResult.permission)
            && Rank(r.permission) >= Rank(hostResult.permission)
  {
  }

  /** Without a host, a wrapper is transparent: the verdict is that of its inner command
      line, e.g. `sudo rm -rf /` is judged exactly as `rm -rf /`. */
  lemma WrapperIsTransparent(tok: Tokenizer, config: Config, cmd: Command, depth: nat)
    requires Wrapper.Unwrapped(cmd).Some?
    requires Wrapper.Unwrapped(cmd).value.innerCommand.Some? && Wrapper.Unwrapped(cmd).value.host.None?
    ensures CheckSingle(tok, config, cmd, depth + 1) ==
            Analyze(tok, config, Wrapper.Unwrapped(cmd).value.innerCommand.value, depth)
  {
  }

  /** `sudo <words>` is judged as the words after the sudo options. */
  lemma SudoJudgedAsInner(tok: Tokenizer, config: Config, cmd: Command, depth: nat, k: nat)
    requires cmd.name == "sudo" && Wrapper.CommandStart(Wrapper.SudoScan, cmd.args, 0) == Some(k)
    ensures CheckSingle(tok, config, cmd, depth + 1) == Analyze(tok, config, Join(cmd.args[k..]), depth)
  {
  }

  // ---------------------------------------------------------------------------------
  // A variant that consults the rm and tee classifiers first

  /** `check_single_command` preceded by `check_rm` and `check_tee`: a classifier's
      verdict, when it gives one, replaces the rule check. */
  function ClassifiedCheck(ops: PathOps, tok: Tokenizer, config: Config, cmd: Command,
                           initialCwd: Option<string>, depth: nat): PermissionResult
  {
    match Rm.CheckRm(ops, cmd, initialCwd)
    case Some(r) => r
    case None =>
      match Tee.CheckTee(ops, cmd, initialCwd)
      case Some(r) => r
      case None => CheckSingle(tok, config, cmd, depth)
  }

  /** The classifiers only ever relax a verdict, and they change nothing for commands
      other than rm and tee. */
  lemma ClassifiedNeverStricter(ops: PathOps, tok: Tokenizer, config: Config, cmd: Command,
                                initialCwd: Option<string>, depth: nat)
    ensures var r := ClassifiedCheck(ops, tok, config, cmd, initialCwd, depth);
            Rank(r.permission) <= Rank(CheckSingle(tok, config, cmd, depth).permission)
    ensures cmd.name != "rm" && cmd.name != "tee" ==>
              ClassifiedCheck(ops, tok, config, cmd, initialCwd, depth) == CheckSingle(tok, config, cmd, depth)
  {
  }

  // ---------------------------------------------------------------------------------
  // Display

  const MaxShown := 60

  /** `shorten_command`: the first 60 characters of a longer command. */
  function ShortenCommand(command: string): (r: string)
    ensures StartsWith(command, r)
    ensures |r| == if |command| > MaxShown then MaxShown else |command|
  {
    if |command| > MaxShown then command[..MaxShown] else command
  }

  /** Shortening twice is shortening once. */
  lemma ShortenIdempotent(command: string)
    ensures ShortenCommand(ShortenCommand(command)) == ShortenCommand(command)
  {
  }

  /** The reason text before any suggestion. */
  function ReasonHead(command: string, result: PermissionResult): string {
    if result.reason == [] then command else ShortenCommand(command) + ": " + result.reason
  }

  /** `format_reason`: the command alone when there is no reason, else the shortened
      command, `": "` and the reason; a suggestion follows on its own line. */
  function FormatReason(command: string, result: PermissionResult): (s: string)
    ensures StartsWith(s, ReasonHead(command, result))
    ensures result.suggestion.None? ==> s == ReasonHead(command, result)
    ensures result.suggestion.Some? ==>
              && EndsWith(s, "\n" + result.suggestion.value)
              && |s| == |ReasonHead(command, result)| + 1 + |result.suggestion.value|
  {
    var reason := if result.reason == [] then command else ShortenCommand(command) + ": " + result.reason;
    match result.suggestion
    case Some(suggestion) =>
      var s := reason + "\n" + suggestion;
      assert s[|s| - |"\n" + suggestion|..] == "\n" + suggestion;
      s
    case None => reason
  }

  /** The pieces can be read back: the reason follows the shortened command and `": "`. */
  lemma FormatReasonRecoversReason(command: string, result: PermissionResult)
    requires result.reason != [] && result.suggestion.None?
    ensures var s := FormatReason(command, result);
            var n := |ShortenCommand(command)|;
            |s| == n + 2 + |result.reason| && s[..n] == ShortenCommand(command) &&
            s[n..n + 2] == ": " && s[n + 2..] == result.reason
  {
    var n := |ShortenCommand(command)|;
    var s := FormatReason(command, result);
    assert s == ShortenCommand(command) + ": " + result.reason;
    assert s[..n] == ShortenCommand(command);
    assert s[n + 2..] == result.reason;
  }
}
