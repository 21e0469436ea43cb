/** `shellEscape` (src/dtach/client.ts) against word splitting and quote removal of the
    POSIX.1-2017 Shell Command Language, sections 2.2.1, 2.2.2 and 2.3. */
module ShellQuoting {
  import opened Wrappers
  import opened Sequences

  // ---------------------------------------------------------------- shellEscape

  predicate Safe(c: char) {
    'a' <= c <= 'z' || 'A' <= c <= 'Z' || '0' <= c <= '9' || c in {'_', '.', '/', ':', '=', '@', '-'}
  }

  predicate Plain(arg: string) {
    arg != "" && forall i | 0 <= i < |arg| :: Safe(arg[i])
  }

  /** `arg.replace(/'/g, "'\\''")`. */
  function EscapeQuotes(arg: string): string {
    if arg == "" then "" else (if arg[0] == '\'' then "'\\''" else [arg[0]]) + EscapeQuotes(arg[1..])
  }

  function EscapeArg(arg: string): string {
    if Plain(arg) then arg else "'" + EscapeQuotes(arg) + "'"
  }

  function ShellEscape(args: seq<string>): string {
    if args == [] then ""
    else if |args| == 1 then EscapeArg(args[0])
    else EscapeArg(args[0]) + " " + ShellEscape(args[1..])
  }

  // ---------------------------------------------------------------- the shell

  /** Between words, within a word, or within single quotes, where no character but the
      closing quote is special (section 2.2.2). */
  datatype Mode = Between | Within(word: string) | Quoted(word: string)

  function Begun(m: Mode): string {
    if m.Between? then "" else m.word
  }

  /** Splits a command line into words (2.3) and removes the quotes (2.6.7). `None`: an
      unterminated quote, a backslash at the end, or an unquoted character that the
      shell would not pass on as it is. */
  function Tokens(s: string, m: Mode): Option<seq<string>>
    decreases |s|
  {
    if s == "" then
      match m
      case Between => Some([])
      case Within(w) => Some([w])
      case Quoted(_) => None
    else if m.Quoted? then
      if s[0] == '\'' then Tokens(s[1..], Within(m.word)) else Tokens(s[1..], Quoted(m.word + [s[0]]))
    else if s[0] == ' ' || s[0] == '\t' then
      if m.Between? then Tokens(s[1..], Between) else Prepend(m.word, Tokens(s[1..], Between))
    else if s[0] == '\'' then Tokens(s[1..], Quoted(Begun(m)))
    else if s[0] == '\\' then
      if |s| < 2 then None
      else if s[1] == '\n' then Tokens(s[2..], m)          // line continuation (2.2.1)
      else Tokens(s[2..], Within(Begun(m) + [s[1]]))
    else if Safe(s[0]) then Tokens(s[1..], Within(Begun(m) + [s[0]]))
    else None
  }

  function Prepend(w: string, rest: Option<seq<string>>): Option<seq<string>> {
    if rest.None? then None else Some([w] + rest.value)
  }

  // ---------------------------------------------------------------- round trip

  /** A run of safe characters is a piece of a word. */
  lemma {:induction false} SafeRun(arg: string, rest: string, m: Mode)
    requires !m.Quoted? && arg != "" && forall i | 0 <= i < |arg| :: Safe(arg[i])
    ensures Tokens(arg + rest, m) == Tokens(rest, Within(Begun(m) + arg))
    decreases |arg|
  {
    var c, tail := arg[0], arg[1..];
    assert arg == [c] + tail;
    Regroup([c], tail, rest);
    SafeChar(c, tail + rest, m);
    if tail == "" {
      assert tail + rest == rest;
    } else {
      SafeRun(tail, rest, Within(Begun(m) + [c]));
      Regroup(Begun(m), [c], tail);
    }
  }

  lemma SafeChar(c: char, more: string, m: Mode)
    requires !m.Quoted? && Safe(c)
    ensures Tokens([c] + more, m) == Tokens(more, Within(Begun(m) + [c]))
  {
    assert ([c] + more)[1..] == more;
  }

  /** The four characters that close the quotes, add a quote and open them again. */
  lemma QuoteWithinQuotes(w: string, more: string)
    ensures Tokens("'\\''" + more, Quoted(w)) == Tokens(more, Quoted(w + "'"))
  {
    var t := "'\\''" + more;
    var u := "\\''" + more;
    assert t[1..] == u && u[2..] == "'" + more && [u[1]] == "'";
    assert ("'" + more)[1..] == more;
    assert Tokens(u, Within(w)) == Tokens("'" + more, Within(w + "'"));
  }

  /** Whatever stands between the quotes comes out as it went in. */
  lemma {:induction false} QuotedRun(arg: string, rest: string, w: string)
    ensures Tokens(EscapeQuotes(arg) + ("'" + rest), Quoted(w)) == Tokens(rest, Within(w + arg))
    decreases |arg|
  {
    if arg == "" {
      assert EscapeQuotes(arg) + ("'" + rest) == "'" + rest && ("'" + rest)[1..] == rest && w + arg == w;
    } else {
      var more := EscapeQuotes(arg[1..]) + ("'" + rest);
      QuotedRun(arg[1..], rest, w + [arg[0]]);
      assert w + [arg[0]] + arg[1..] == w + arg;
      QuotedHead(arg, "'" + rest);
      if arg[0] == '\'' { QuoteWithinQuotes(w, more); } else { QuotedChar(arg[0], more, w); }
    }
  }

  lemma QuotedHead(arg: string, tail: string)
    requires arg != ""
    ensures EscapeQuotes(arg) + tail ==
              (if arg[0] == '\'' then "'\\''" else [arg[0]]) + (EscapeQuotes(arg[1..]) + tail)
  {
    Regroup(if arg[0] == '\'' then "'\\''" else [arg[0]], EscapeQuotes(arg[1..]), tail);
  }

  lemma QuotedChar(c: char, more: string, w: string)
    requires c != '\''
    ensures Tokens([c] + more, Quoted(w)) == Tokens(more, Quoted(w + [c]))
  {
    assert ([c] + more)[1..] == more;
  }

  lemma ArgRoundTrip(arg: string, rest: string)
    ensures Tokens(EscapeArg(arg) + rest, Between) == Tokens(rest, Within(arg))
  {
    assert "" + arg == arg;
    if Plain(arg) {
      SafeRun(arg, rest, Between);
    } else {
      var t := EscapeQuotes(arg) + ("'" + rest);
      QuotedRun(arg, rest, "");
      assert EscapeArg(arg) + rest == "'" + t && ("'" + t)[1..] == t;
    }
  }

  /** Word splitting and quote removal give back exactly the arguments: empty strings,
      spaces and single quotes included. */
  lemma {:induction false} EscapedArgsComeBack(args: seq<string>)
    ensures Tokens(ShellEscape(args), Between) == Some(args)
  {
    if |args| == 1 {
      ArgRoundTrip(args[0], "");
      assert EscapeArg(args[0]) + "" == EscapeArg(args[0]);
      assert args == [args[0]];
    } else if args != [] {
      var rest := " " + ShellEscape(args[1..]);
      EscapedArgsComeBack(args[1..]);
      ArgRoundTrip(args[0], rest);
      Separated(args[0], ShellEscape(args[1..]));
      assert ShellEscape(args) == EscapeArg(args[0]) + rest;
      assert args == [args[0]] + args[1..];
    }
  }

  lemma Separated(w: string, more: string)
    ensures Tokens(" " + more, Within(w)) == Prepend(w, Tokens(more, Between))
  {
    assert (" " + more)[1..] == more;
  }

  /** Two argument lists never share a command line. */
  lemma EscapeIsInjective(a: seq<string>, b: seq<string>)
    requires ShellEscape(a) == ShellEscape(b)
    ensures a == b
  {
    EscapedArgsComeBack(a);
    EscapedArgsComeBack(b);
  }
}
