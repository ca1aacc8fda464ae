# claude-bash-hook decision engine, in Dafny

claude-bash-hook is a pre-execution hook for shell commands. It receives a command line,
decides Allow, Ask or Deny, and gives a reason. This project models the decision engine
and proves properties of it. The engine has three parts.

- **Wrapper resolvers** (`Wrapper`, `Shell`).
  - For `sudo`, `ssh`, `scp`, `rsync`, `env`, `kubectl exec`, the pass-through wrappers
    `nice`, `nohup`, `time`, `strace`, `ltrace`, and `sh`/`bash`/`zsh -c`, they extract
    the inner command line and/or the remote host.
  - The scanners are methods with the source's `for` loops and flags. Each is proved
    equal to a specification function.
  - Four of them share one specification: `CommandStart` gives the index of the first
    word that is neither an option nor a consumed option value. Its lemmas are stated in
    terms of each scanner's own classification of a token (`StepOf`): a token the scan
    treats as an option's value is never taken as the command, and a first word preceded
    only by tokens the scan skips singly is always the start.
  - That classification is the source's, and for sudo it under-restricts in two ways.
    In `sudo -uA root ls` only the cluster's last letter is examined, so `root`, the
    value of `-u`, becomes the command (`Wrapper.SudoClusterChecksOnlyLastLetter`). In
    `sudo -uroot rm -rf /` the cluster ends in a value-taking letter although its value
    is inline, so `rm` is consumed and the line is judged as `/`
    (`Wrapper.SudoInlineValueSwallowsCommand`).
- **Safe-path classifiers** (`Rm`, `Tee`).
  - `rm` and `tee` are auto-allowed only when every file operand resolves strictly inside
    `/tmp/`. For rm, a file inside the project directory also qualifies.
  - Resolution (`realpath -m`) and `Path::parent` are the `PathOps` parameter.
- **Aggregator** (`Hook`).
  - A line is tokenised and every simple command is checked. A wrapper's inner line is
    analysed recursively, and a host verdict is combined with it. The most restrictive
    verdict wins, and ties keep the earliest.
  - The tokenizer and the rule store are function-valued parameters (`Tokenizer`,
    `Config`).
  - `AnalyzeCommand` and `CheckSingleCommand` are the source's loop and mutual recursion.
    They are proved equal to the functions `Analyze` and `CheckSingle`, and the lemmas
    are stated about those functions.

Files: `common.dfy` (Option, the Rust string operations used), `types.dfy` (Command,
UnwrapResult, Permission and its rank, PermissionResult, PathOps), `shell.dfy`,
`wrapper.dfy`, `rm.dfy`, `tee.dfy`, `hook.dfy`.

## Model

| member | source | states |
|---|---|---|
| Common.IndexOf | src/wrappers/shell.rs:19 | Some(k) is the first occurrence: `s[k] == x` and there is no `x` before it. None holds exactly when `x` does not occur. |
| Common.AfterFirst | src/wrapper.rs:136-140 | Without the character the whole string is returned. Otherwise the input is (prefix without `c`) + `c` + result. |
| Common.BeforeFirst | src/wrapper.rs:336-340 | The result is a prefix free of `c`. When `c` occurs, `c` follows the result in the input; otherwise the result is the whole input. |
| Common.Join | src/wrapper.rs:88 | Joining nothing gives the empty string. The line starts with the first word, and with two or more words a space follows it. |
| Common.SplitJoin | src/wrapper.rs:88 | Splitting a joined line at spaces gives back the words, when none of them holds a space, so the join loses no word boundary. |
| Common.Trim | src/wrappers/shell.rs:40 | The result is a slice `s[i..j]` with only whitespace outside it and no whitespace at either end. |
| Types.NonFlagArgs | src/rm.rs:17-22 | A token is kept iff it is an argument that does not start with `-`; the result is no longer than the input. |
| Types.NonFlagArgsAppend | src/rm.rs:17-22 | The selection distributes over concatenation, so it keeps the operands in their order. |
| Types.DecidingPathUnique | src/rm.rs:53-68 | At most one resolved location decides a path: its own resolution, or its non-empty parent's when that fails. |
| Shell.StripQuotes | src/wrappers/shell.rs:39-46 | The result is never longer than the trimmed input, which is never longer than the input. Its value is given by `StripQuotesMatchesSource` and `StripQuotesLoneQuote`. |
| Shell.StripQuotesMatchesSource | src/wrappers/shell.rs:39-46 | Except on a lone quote, the result is what the source's `starts_with`/`ends_with` guard and slice give on the trimmed string: its inner part when both ends are the same quote, else the trimmed string itself. |
| Shell.StripQuotesLoneQuote | src/wrappers/shell.rs:40-45 | On a trimmed lone quote, where the source's slice panics, the result is the trimmed string. |
| Shell.StripQuotesIsSlice | src/wrappers/shell.rs:39-46 | The result is always a contiguous slice of the input. |
| Shell.StripQuotesGuardAgrees | src/wrappers/shell.rs:41-42 | The source's starts_with/ends_with guard holds iff the model's guard holds or the trimmed string is a lone quote (where the source's slice is invalid). |
| Shell.StripQuotesOnce | src/wrappers/shell.rs:40-45 | Quoting any text (with `'` or `"`) and stripping gives back exactly that text, so only one layer is removed. |
| Shell.Unwrap | src/wrappers/shell.rs:7-36 | Some iff the name is sh, bash or zsh and some `-c` is followed by a token. Then the inner command is StripQuotes of the token after the first `-c`, there is no host, and the wrapper is the name. |
| Wrapper.StepOf | src/wrapper.rs:59-76 | Only dash-led tokens ever consume the next token. A token is a first word iff it is not dash-led and is not an env `NAME=VALUE` assignment. The same per-token decision is at 116-131, 277-290 and 335-345. |
| Wrapper.CommandStart | src/wrapper.rs:46-81 | A found start is at or after the scan start and is classified as a first word. |
| Wrapper.StartIsReachedWord | src/wrapper.rs:46-81 | k is the start iff the scan reaches k and `args[k]` is a first word. |
| Wrapper.OptionValueNeverStarts | src/wrapper.rs:59-74 | The token after a reached value-taking option is never examined and is never the start of the inner command. |
| Wrapper.FirstWordWins | src/wrapper.rs:77-80 | A token the scan classifies as a first word, preceded only by tokens it classifies as singly skipped, is the start. This is about the scan's classification: sudo's classification can itself treat a real command as an option value (see the two sudo lemmas below). |
| Wrapper.OnlyOptionsPrecedeCommand | src/wrapper.rs:46-81 | Every word-like token before the start directly follows a value-taking option. |
| Wrapper.CommandStartIgnoresSuffix | src/wrapper.rs:52-56 | Once a start exists, tokens appended after it do not move it. |
| Wrapper.UnwrapSudo | src/wrapper.rs:34-92 | The result is None when there is no first word. Otherwise the inner command is the join of `args[k..]` from the first word k, with no host and wrapper "sudo". |
| Wrapper.UnwrapSsh | src/wrapper.rs:96-158 | Always Some. The host is the first word with everything through its first `@` removed. The inner command is the join of the tokens after the host, or None when there are none. |
| Wrapper.UnwrapEnv | src/wrapper.rs:259-306 | Like sudo, over env's table. Flags, the six value-taking options with their values, and NAME=VALUE assignments are skipped. |
| Wrapper.UnwrapSimpleWrapper | src/wrapper.rs:309-361 | Like sudo, over the per-name table of value-taking options; the wrapper is the command name. |
| Wrapper.CopyHostIsFirstCandidate | src/wrapper.rs:166-184 | The host is None iff no argument names a host. Otherwise it is the candidate of the first argument that has one. |
| Wrapper.HostCandidateShape | src/wrapper.rs:167-183 | What one scp or rsync argument contributes (the rsync body is 199-216): a host comes only from a non-dash argument with a colon, is a colon-free tail of the text before the first colon, and for scp never starts with `/` or `.`. |
| Wrapper.PlainHostCandidate | src/wrapper.rs:171-182 | A plain `host:path` argument, with no `@` and no local-path start before the colon, names that host for both scp and rsync. |
| Wrapper.CopyHostShape | src/wrapper.rs:171-182 | A host never contains `:`. An scp host never starts with `/` or `.`. |
| Wrapper.UnwrapScp | src/wrapper.rs:162-191 | Always Some, with no inner command, wrapper "scp", and the first scp host candidate (`user@` stripped before the local-path test). |
| Wrapper.UnwrapRsync | src/wrapper.rs:194-224 | Always Some, with no inner command, wrapper "rsync", and the first rsync host candidate (local-path test before stripping `user@`). |
| Wrapper.UnwrapKubectl | src/wrapper.rs:229-255 | Some iff the first argument is "exec". The inner command exists iff a `--` occurs before the last token, and it is then the join of the tokens after the first `--`. |
| Wrapper.SudoExamples | src/wrapper.rs:376-387 | `sudo ls -la` gives "ls -la"; `sudo -A -u root ls` gives "ls". |
| Wrapper.SudoClusterChecksOnlyLastLetter | src/wrapper.rs:64-74 | In `sudo -uA root ls` only the last letter of the cluster is examined, so the inner command is "root ls". |
| Wrapper.SudoInlineValueSwallowsCommand | src/wrapper.rs:64-74 | `sudo -uroot rm -rf /` ends in `t`, so the cluster consumes `rm`, and the inner command is "/". |
| Wrapper.SshInlineValueNotConsumed | src/wrapper.rs:113-125 | An ssh token consumes the next one iff it is exactly a table entry; `-p22` does not. |
| Wrapper.SshAlwaysMatches | src/wrapper.rs:148-157 | ssh always yields Some. With no host it has neither host nor inner command. |
| Wrapper.SshUserHostExample | src/wrapper.rs:390-395 | `ssh user@host ls -la` gives host "host" and inner "ls -la". |
| Wrapper.SshOptionsExample | src/wrapper.rs:398-403 | `ssh -p 22 -i key.pem host whoami` gives host "host" and inner "whoami". |
| Wrapper.ScpHostExample | src/wrapper.rs:171-182 | `user@host:/path/` names the scp host "host". |
| Wrapper.ScpExample | src/wrapper.rs:406-410 | `scp file.txt user@host:/path/` gives host "host" and no inner command. |
| Wrapper.CopyLocalTestOrder | src/wrapper.rs:173-213 | `user@./x:y` names no host for scp but names the host "./x" for rsync. |
| Wrapper.EnvAssignmentExample | src/wrapper.rs:419-424 | `env VAR=1 rm -rf /tmp` gives "rm -rf /tmp". |
| Wrapper.EnvEqualsSignExample | src/wrapper.rs:287-290 | A token that starts with `=` is not an assignment: `env -u HOME =x ls` gives "=x ls". |
| Wrapper.SimpleAssignmentNotConsumed | src/wrapper.rs:335-343 | A dash token containing `=` never consumes the next token. |
| Wrapper.NiceExample | src/wrapper.rs:427-431 | `nice -n 10 ls -la` gives "ls -la". |
| Wrapper.NohupExample | src/wrapper.rs:315-321 | nohup has no value-taking options, so `nohup -n 10 ls` gives "10 ls". |
| Wrapper.NoValueOptionsFirstWord | src/wrapper.rs:315-345 | With an empty table, the start is the first non-dash token and every token before it is a dash token; with none, all tokens are dash tokens. |
| Wrapper.KubectlExecExample | src/wrapper.rs:434-439 | `kubectl exec mypod -- ls -la` gives "ls -la" with wrapper "kubectl exec". |
| Wrapper.KubectlOtherExamples | src/wrapper.rs:455-468 | `kubectl exec mypod` gives Some with no inner command; `kubectl get pods` gives None. |
| Wrapper.UnwrapCommand | src/wrapper.rs:19-30 | The dispatcher routes each wrapper name to its resolver and returns None for any other name. |
| Wrapper.UnwrapOnlyKnownNames | src/wrapper.rs:19-30 | A match happens only for the listed wrapper names. |
| Wrapper.HostOnlyFromRemoteWrappers | src/wrapper.rs:19-30 | Only ssh, scp and rsync produce a host, and only ssh produces both a host and an inner command. |
| Rm.TmpRuleMeansStrictlyInside | src/rm.rs:76-81 | The /tmp rule holds iff the path starts with `/tmp/` and some later character is not `/`. |
| Rm.TmpRootRejected | src/rm.rs:76-81 | `/tmp` followed only by slashes (`/tmp`, `/tmp/`, `/tmp//`) never passes the /tmp rule. |
| Rm.CwdPrefix | src/rm.rs:85-89 | The prefix ends in `/`, extends the directory, and is one longer exactly when the directory did not end in `/`. |
| Rm.ProjectRuleMeansInside | src/rm.rs:84-94 | A path is in the project iff it extends the directory and then continues with `/`, unless the directory already ends in `/`. A sibling such as `/a/b2` of `/a/b` is outside. |
| Rm.ProjectRuleSlashInsensitive | src/rm.rs:85-89 | Giving the directory with or without a trailing slash decides the same. |
| Rm.RootProjectAdmitsEverything | src/rm.rs:84-94 | An empty project directory, or `/`, admits every absolute path. |
| Rm.IsUnderAllowedDir | src/rm.rs:74-97 | Accepts every path that passes the /tmp rule. With no project directory it accepts exactly those; otherwise it also accepts what the project rule accepts. |
| Rm.AllowedWithoutCwdAllowedWithAny | src/rm.rs:74-97 | Giving a project directory only widens what is allowed. |
| Rm.IsSafePath | src/rm.rs:44-71 | An empty path, or one with NUL or newline, is unsafe. A sane path is safe iff its deciding location (own resolution, else the resolution of its non-empty parent) is under an allowed directory. |
| Rm.ResolvedPathDecides | src/rm.rs:53-70 | When the path resolves, the parent is never consulted. |
| Rm.UnresolvableIsUnsafe | src/rm.rs:55-67 | When neither the path nor a non-empty parent resolves, the path is unsafe. |
| Rm.AllSafe | src/rm.rs:30-34 | The early-exit loop holds iff every file operand is safe. |
| Rm.CheckRm | src/rm.rs:11-41 | Some iff the name is "rm", some argument is not a dash token, and every such argument is safe. Some is always Allow with "rm in /tmp or project dir", so rm never asks or denies. |
| Rm.MixedPathsExample | src/rm.rs:188-192 | `rm /tmp/a /home/user/b` gets no verdict, with no project directory or with one that does not contain the home path. |
| Rm.TmpSubdirExample | src/rm.rs:138-142 | `rm -rf /tmp/mydir/subdir` is allowed. |
| Rm.TmpItselfExample | src/rm.rs:145-149 | `rm -rf /tmp` gets no verdict unless the project directory contains `/tmp`. |
| Rm.ProjectFileExample | src/rm.rs:166-171 | A file below the project directory is allowed. |
| Rm.OutsideProjectExample | src/rm.rs:174-178 | A file outside `/tmp/` and the project directory gets no verdict. |
| Tee.IsUnderTmp | src/tee.rs:83-105 | A resolved location is accepted iff it starts with `/tmp/` and some character after that is not `/`. |
| Tee.IsUnderTmpIsTmpRule | src/tee.rs:83-105 | tee's `is_under_tmp` is exactly rm's /tmp rule. |
| Tee.IsUnderTmpImpliesAllowedDir | src/tee.rs:83-105 | Every location tee accepts is one rm accepts, for every project directory. |
| Tee.IsSafeTmpPath | src/tee.rs:48-80 | An empty path, or one with NUL or newline, is unsafe. A sane path is safe iff its deciding location passes the /tmp rule. |
| Tee.SafeForTeeSafeForRm | src/tee.rs:48-80 | A path tee may write is a path rm may delete, for every project directory. |
| Tee.AllSafeTmp | src/tee.rs:34-38 | The early-exit loop holds iff every output file is safe. |
| Tee.CheckTee | src/tee.rs:11-45 | None unless the name is "tee". Only dash tokens gives Allow "tee with no output file". Otherwise the result is Some iff every non-dash argument is safe, and it is then Allow "tee to /tmp". Tee is never Ask or Deny. |
| Tee.CheckTeeIgnoresCwd | src/tee.rs:11 | The verdict does not depend on the project directory. |
| Tee.TeeAllowedImpliesRmAllowed | src/tee.rs:40-44 | When tee is allowed to write its files, rm with the same arguments is allowed too. |
| Tee.AppendExample | src/tee.rs:167-171 | `tee -a /tmp/test.log` is allowed. |
| Tee.HomeExample | src/tee.rs:153-157 | `tee /home/user/file.log` gets no verdict. |
| Hook.AnalyzeCommand | src/main.rs:99-131 | The loop and early returns compute `Analyze`: Ask on tokenizer failure, "No commands found", or the fold by strict rank over the per-command results. |
| Hook.CheckSingleCommand | src/main.rs:134-168 | The recursion computes `CheckSingle`: inner command analysed recursively, host verdict only when strictly more restrictive, host-only wrappers against the host rules, everything else against the plain rules. |
| Hook.Verdicts | src/main.rs:122-128 | There is one result per command. |
| Hook.VerdictsAt | src/main.rs:122-128 | The k-th result is the check of the k-th command. |
| Hook.FoldIsEarliestMaximum | src/main.rs:119-130 | The fold's rank is at least every result's rank. The fold is the initial Allow, or the first result of maximal rank; a non-initial fold has rank above Allow. |
| Hook.FoldAllAllowed | src/main.rs:119-130 | When every result is Allow, the fold is the initial value: Allow with an empty reason and no suggestion. |
| Hook.AnalyzeOutcomes | src/main.rs:99-131 | Tokenizer failure gives Ask with the diagnostic or "". No commands gives Allow "No commands found". Otherwise the verdict has the maximal rank among the commands and is the earliest command of that rank (or the initial Allow). |
| Hook.OneDenyDenies | src/main.rs:236-241 | One denied command denies the whole line. |
| Hook.AllAllowedLine | src/main.rs:119-130 | A line whose commands are all allowed is Allow with an empty reason. |
| Hook.PlainCommandUsesRules | src/main.rs:164-167 | A non-wrapper, or a wrapper with neither inner command nor host, is checked by `check_command` under its own name. |
| Hook.HostOnlyUsesHostRules | src/main.rs:156-163 | A wrapper with a host and no inner command is checked by `check_command_with_host`. |
| Hook.HostWinsOnlyWhenStricter | src/main.rs:138-155 | With inner and host, the verdict is one of the two. It is the host verdict only when that is strictly more restrictive, and it is never less restrictive than either. |
| Hook.WrapperIsTransparent | src/main.rs:136-155 | A wrapper with an inner command and no host is judged exactly as its inner line. |
| Hook.SudoJudgedAsInner | src/main.rs:228-233 | `sudo <options> <words>` is judged as the words from the first word on. |
| Hook.ClassifiedNeverStricter | src/main.rs:134-168 | Consulting the rm and tee classifiers first never makes a verdict stricter. It changes nothing for other command names. |
| Hook.ShortenCommand | src/main.rs:186-192 | The result is a prefix of the command, of length min(length, 60). |
| Hook.ShortenIdempotent | src/main.rs:186-192 | Shortening twice is shortening once. |
| Hook.FormatReason | src/main.rs:171-183 | The text starts with the command alone (empty reason) or with shortened command + ": " + reason. A suggestion follows after one newline and ends the text; with no suggestion there is nothing more. |
| Hook.FormatReasonRecoversReason | src/main.rs:171-176 | With a reason and no suggestion, the text splits back into the shortened command, ": " and the reason. |

## Left out

- I/O is not modelled: `main` (reading stdin, JSON decoding and encoding, loading the config, the exit code), the advice subprocess, and the debug binary.
- The tokenizer (`analyzer::analyze`) and the rule store (`Config::check_command`, `Config::check_command_with_host`) are not part of this model. They appear only as the function-valued parameters `Hook.Tokenizer` and `Hook.Config`.
- `resolve_path` runs `realpath -m` and `Path::parent` is a library call. Both are the abstract `PathOps` parameter, so no property of real path resolution (such as `..` or symlink handling) is claimed.
- Hook.CheckSingleCommand: the source recurses without bound; the model takes a depth and answers Ask "wrapper nesting too deep" when a wrapper with an inner command is reached at depth 0. This keeps termination provable; with a depth above the wrapper nesting of the line, that case is never reached.
- The call in src/main.rs:136 passes a config argument that `unwrap_command` in src/wrapper.rs:19 does not take. The model follows wrapper.rs and ignores it.
- The dispatcher in src/wrapper.rs:19-30 does not route sh/bash/zsh. The model's dispatcher (`Wrapper.UnwrapCommand`) also sends them to the inline-shell resolver of src/wrappers/shell.rs, which is evidently meant to be reached from it.
- `check_single_command` never calls `check_rm` or `check_tee`. `Hook.CheckSingle` follows the source. `Hook.ClassifiedCheck` is a separate variant that consults them first.
- Strings are sequences of characters, not UTF-8 bytes. Three places differ:
  - `shorten_command` compares and slices by bytes, and panics when byte 60 falls inside a character; the model takes 60 characters.
  - ssh's `&arg[0..2]` panics on a dash token whose second character is not ASCII; the model takes 2 characters.
  - sudo's byte-length test decides the same as a character-length test, because the letters it checks are ASCII.
- Shell.StripQuotes: on a trimmed string that is a lone quote, the source's slice `s[1..0]` panics. The model returns the trimmed string and exposes that input as `Shell.StripQuotesPanics`.
- The fold starts from `PermissionResult::default()` with the permission set to Allow. The default's reason and suggestion are defined outside the shown files; the model takes them to be empty and None.
