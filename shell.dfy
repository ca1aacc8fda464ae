/** The inline-shell resolver of src/wrappers/shell.rs: `sh -c 'cmd'`, `bash -c …` and
    `zsh -c …` unwrap to the token after the first `-c`, with one layer of matching
    quotes removed. */
module Shell {
  import opened Common
  import opened Types

  const ShellNames: seq<string> := ["sh", "bash", "zsh"]

  predicate IsQuote(c: char) {
    c == '\'' || c == '"'
  }

  /** The guard of `strip_quotes` as the source writes it, on the trimmed string. */
  predicate SourceQuoteGuard(t: string) {
    (StartsWith(t, "'") && EndsWith(t, "'")) || (StartsWith(t, "\"") && EndsWith(t, "\""))
  }

  /** The inputs on which the source's `s[1..s.len() - 1]` is the invalid slice `[1..0]`:
      the trimmed string is a lone quote character. */
  predicate StripQuotesPanics(s: string) {
    var t := Trim(s);
    |t| == 1 && IsQuote(t[0])
  }

  /** `strip_quotes`: trim, then drop one outer pair of matching quotes. A lone quote is
      returned as it is (the source panics there, see `StripQuotesPanics`). */
  function StripQuotes(s: string): (r: string)
    ensures |r| <= |Trim(s)| <= |s|
  {
    var t := Trim(s);
    if |t| >= 2 && ((t[0] == '\'' && t[|t| - 1] == '\'') || (t[0] == '"' && t[|t| - 1] == '"')) then
      t[1..|t| - 1]
    else
      t
  }

  /** The result is always a contiguous piece of the input. */
  lemma StripQuotesIsSlice(s: string)
    ensures exists i, j :: 0 <= i <= j <= |s| && StripQuotes(s) == s[i..j]
  {
    TrimIsSlice(s);
    var t := Trim(s);
    var i, j :| 0 <= i <= j <= |s| && t == s[i..j];
    var r := StripQuotes(s);
    assert r == t || (|t| >= 2 && r == t[1..|t| - 1]);
    SliceOrInnerSlice(s, t, i, j, r);
  }

  /** A slice, or a slice less its two ends, is a slice. */
  lemma SliceOrInnerSlice(s: string, t: string, i: nat, j: nat, r: string)
    requires i <= j <= |s| && t == s[i..j]
    requires r == t || (|t| >= 2 && r == t[1..|t| - 1])
    ensures exists a, b :: 0 <= a <= b <= |s| && r == s[a..b]
  {
    if r != t {
      SliceOfSlice(s, i, j, 1, |t| - 1);
      assert r == s[i + 1..j - 1];
    }
  }

  /** The model's guard agrees with the source's on every trimmed string except a lone
      quote, where the source's guard holds and the model's does not. */
  lemma StripQuotesGuardAgrees(t: string)
    ensures SourceQuoteGuard(t) <==>
              (|t| == 1 && IsQuote(t[0])) || (|t| >= 2 && IsQuote(t[0]) && t[|t| - 1] == t[0])
  {
    if |t| >= 1 {
      assert StartsWith(t, "'") <==> t[0] == '\'' by {
        assert t[..1] == [t[0]];
      }
      assert StartsWith(t, "\"") <==> t[0] == '"' by {
        assert t[..1] == [t[0]];
      }
      assert EndsWith(t, "'") <==> t[|t| - 1] == '\'' by {
        assert t[|t| - 1..] == [t[|t| - 1]];
      }
      assert EndsWith(t, "\"") <==> t[|t| - 1] == '"' by {
        assert t[|t| - 1..] == [t[|t| - 1]];
      }
    }
  }

  /** Away from the lone-quote panic, the model computes what the source's guard and
      slice compute: the trimmed string, less its first and last characters when both
      are the same quote. */
  lemma StripQuotesMatchesSource(s: string)
    requires !StripQuotesPanics(s)
    ensures var t := Trim(s);
            StripQuotes(s) == (if SourceQuoteGuard(t) then t[1..|t| - 1] else t)
  {
    var t := Trim(s);
    StripQuotesGuardAgrees(t);
  }

  /** On a lone quote the model keeps the trimmed string. */
  lemma StripQuotesLoneQuote(s: string)
    requires StripQuotesPanics(s)
    ensures StripQuotes(s) == Trim(s)
  {
  }

  /** Exactly one layer is removed, whatever the quoted text is: `''x''` gives `'x'`. */
  lemma StripQuotesOnce(w: string)
    ensures StripQuotes("'" + w + "'") == w
    ensures StripQuotes("\"" + w + "\"") == w
  {
    var q := "'" + w + "'";
    TrimKeeps(q);
    assert q[1..|q| - 1] == w;
    var d := "\"" + w + "\"";
    TrimKeeps(d);
    assert d[1..|d| - 1] == w;
  }

  /** A string whose ends are not whitespace is its own trim. */
  lemma TrimKeeps(s: string)
    requires s != [] && !IsWhitespace(s[0]) && !IsWhitespace(s[|s| - 1])
    ensures Trim(s) == s
  {
    assert TrimStart(s) == s;
    assert TrimEnd(s) == s;
  }

  /** `unwrap`: only sh, bash and zsh with a `-c` that is followed by another token. */
  function Unwrap(cmd: Command): (r: Option<UnwrapResult>)
    ensures r.Some? <==> cmd.name in ShellNames && exists c :: 0 <= c < |cmd.args| - 1 && cmd.args[c] == "-c"
    ensures r.Some? ==> r.value.innerCommand.Some? && r.value.host.None? && r.value.wrapper == cmd.name
    ensures r.Some? ==>
      exists c :: 0 <= c < |cmd.args| - 1 && cmd.args[c] == "-c" && "-c" !in cmd.args[..c] &&
        r.value.innerCommand.value == StripQuotes(cmd.args[c + 1])
  {
    if cmd.name !in ShellNames then None
    else if |cmd.args| < 2 then None
    else
      match IndexOf(cmd.args, "-c")
      case None => None
      case Some(cPos) =>
        if cPos + 1 >= |cmd.args| then None
        else Some(UnwrapResult(Some(StripQuotes(cmd.args[cPos + 1])), None, cmd.name))
  }
}
