/**
 The two nested quoting layers of a tmux workload (internal/adapter/delegatedtmux/control.go and
 provider_tmux.go): the shell words of the wrapper, and the tmux command line that carries it. Each
 layer has a reference reader written from the reading side's rules, and quoting followed by reading
 is the identity.
 */
module Quoting {
  import opened Prelude
  import ControlMode

  const NUL := '\0'

  // ------------------------------------------------------------- tmux quoting

  predicate Control(c: char) { c as int < 0x20 || c as int == 0x7f }

  function QuoteChar(c: char): string {
    if c == '\\' then "\\\\"
    else if c == '"' then "\\\""
    else if c == '$' then "\\$"
    else if Control(c) then "\\" + ControlMode.Octal(c as int)
    else [c]
  }

  /** Printable bytes but backslash, quote and dollar stand for themselves; these three get a backslash, and
      control bytes their three octal digits. */
  lemma QuotedByteExactly(c: char)
    ensures QuoteChar(c) == [c] <==> 0x20 <= c as int && c as int != 0x7f && c != '\\' && c != '"' && c != '$'
    ensures c == '\\' || c == '"' || c == '$' ==> QuoteChar(c) == ['\\', c]
    ensures c as int < 0x20 || c as int == 0x7f ==>
              |QuoteChar(c)| == 4 && QuoteChar(c)[0] == '\\' && ControlMode.Decoded(QuoteChar(c)) == Some([c])
  {
    if c as int < 0x20 || c as int == 0x7f {
      var text := QuoteChar(c);
      assert text[1..4] == ControlMode.Octal(c as int) && text[4..] == "";
      ControlMode.OctalRoundTrip(c as int);
      assert ControlMode.Decoded("") == Some("");
      assert ControlMode.DecodeByte(text) == Some((c, 4));
      assert [c] + "" == [c];
      hide ControlMode.Octal, ControlMode.OctalValue;
    }
  }

  function QuoteBody(v: string): string {
    if v == "" then "" else QuoteChar(v[0]) + QuoteBody(v[1..])
  }

  function QuoteTmux(v: string): string { "\"" + QuoteBody(v) + "\"" }

  lemma {:induction false} QuoteBodySnoc(v: string, c: char)
    ensures QuoteBody(v + [c]) == QuoteBody(v) + QuoteChar(c)
    decreases |v|
  {
    if v == "" {
      assert v + [c] == [c];
      assert QuoteBody([c]) == QuoteChar(c) + "";
    } else {
      assert (v + [c])[1..] == v[1..] + [c];
      QuoteBodySnoc(v[1..], c);
    }
  }

  lemma QuoteNothing(v: string)
    ensures "\"" + QuoteBody(v[..0]) == "\""
  {
  }

  /** The switch on one byte of `quoteTmuxArg`. */
  method QuoteByte(c: char) returns (piece: string)
    ensures piece == QuoteChar(c)
  {
    match c {
      case '\\' => piece := "\\\\";
      case '"' => piece := "\\\"";
      case '$' => piece := "\\$";
      case _ =>
        if c as int < 0x20 || c as int == 0x7f {
          piece := "\\" + ControlMode.Octal(c as int);
        } else {
          piece := [c];
        }
    }
  }

  /** control.go `quoteTmuxArg`: refused exactly for arguments with a NUL. */
  method QuoteTmuxArg(v: string) returns (r: Option<string>)
    ensures r == if NUL in v then None else Some(QuoteTmux(v))
  {
    hide QuoteBody, QuoteChar;
    if NUL in v {
      return None;
    }
    var b := "\"";
    var i := 0;
    QuoteNothing(v);
    while i < |v|
      invariant 0 <= i <= |v|
      invariant b == "\"" + QuoteBody(v[..i])
    {
      var piece := QuoteByte(v[i]);
      QuoteGrows(v, i);
      b := b + piece;
      i := i + 1;
    }
    assert v[..i] == v;
    return Some(b + "\"");
  }

  lemma QuoteGrows(v: string, i: nat)
    requires i < |v|
    ensures "\"" + QuoteBody(v[..i]) + QuoteChar(v[i]) == "\"" + QuoteBody(v[..i + 1])
  {
    hide QuoteBody, QuoteChar;
    assert v[..i + 1] == v[..i] + [v[i]];
    QuoteBodySnoc(v[..i], v[i]);
  }

  // ------------------------------------------------- reference tmux tokeniser

  // What tmux(1) says under PARSING SYNTAX of double-quoted strings, for the text the provider writes: a
  // leading tilde becomes a home directory, a backslash escapes. An unescaped dollar, the letter escapes and
  // words that mix bare text with quotes are outside that text, and refused.

  /** The home directory of a user, "" for the server's own; none if there is no such user. */
  type Homes = string -> Option<string>

  /** No home directory is empty or itself begins with a tilde. */
  ghost predicate ProperHomes(homes: Homes) {
    forall user :: homes(user).Some? ==> homes(user).value != "" && homes(user).value[0] != '~'
  }

  predicate Tilde(s: string) { s != "" && s[0] == '~' }

  /** The user name after a tilde reaches up to a slash, blank or quote. */
  function UserName(s: string): (user: string)
    ensures user <= s
  {
    if s == "" || s[0] in {'/', ' ', '\t', '\n', '"', '\''} then "" else [s[0]] + UserName(s[1..])
  }

  /** One byte of a double-quoted string as tmux reads it: the byte and how much text it took. */
  function TmuxByte(s: string): Option<(char, nat)>
    requires s != ""
    ensures TmuxByte(s).Some? ==> 0 < TmuxByte(s).value.1 <= |s|
  {
    if s[0] == '$' then None
    else if s[0] != '\\' then Some((s[0], 1))
    else if |s| < 2 then None
    else if '0' <= s[1] <= '3' then
      if |s| < 4 || !ControlMode.IsOctal(s[2]) || !ControlMode.IsOctal(s[3]) then None
      else Some((ControlMode.OctalValue(s[1..4]) as char, 4))
    else if '4' <= s[1] <= '9' || 'a' <= s[1] <= 'z' || 'A' <= s[1] <= 'Z' then None
    else Some((s[1], 2))
  }

  /** Reads the inside of a double-quoted string up to its closing quote. */
  function TmuxQuoted(s: string, word: string): Option<(string, string)>
    decreases |s|
    ensures TmuxQuoted(s, word).Some? ==> |TmuxQuoted(s, word).value.1| < |s|
  {
    if s == "" then None
    else if s[0] == '"' then Some((word, s[1..]))
    else
      match TmuxByte(s)
      case None => None
      case Some((c, n)) => TmuxQuoted(s[n..], word + [c])
  }

  predicate NameChar(c: char) { 'a' <= c <= 'z' || c == '-' }

  /** The text after an opening quote, with a leading tilde replaced. */
  function TmuxOpened(s: string, homes: Homes): Option<(string, string)>
    ensures TmuxOpened(s, homes).Some? ==> |TmuxOpened(s, homes).value.1| < |s|
  {
    if !Tilde(s) then TmuxQuoted(s, "")
    else
      var user := UserName(s[1..]);
      match homes(user)
      case None => None
      case Some(home) => TmuxQuoted(s[1 + |user|..], home)
  }

  /** The arguments of one command line; `word` is the argument being read, if one has begun. */
  function TmuxTokens(s: string, word: Option<string>, homes: Homes): Option<seq<string>>
    decreases |s|
  {
    var flushed := if word.Some? then [word.value] else [];
    if s == "" then Some(flushed)
    else if s[0] == ' ' then
      match TmuxTokens(s[1..], None, homes)
      case None => None
      case Some(rest) => Some(flushed + rest)
    else if NameChar(s[0]) then
      TmuxTokens(s[1..], Some((if word.Some? then word.value else "") + [s[0]]), homes)
    else if s[0] == '"' && word.None? then
      match TmuxOpened(s[1..], homes)
      case None => None
      case Some((text, rest)) => TmuxTokens(rest, Some(text), homes)
    else None
  }

  lemma ReadQuotedChar(c: char, rest: string)
    requires c as int < 256
    ensures QuoteChar(c) != "" && QuoteChar(c)[0] != '"'
    ensures TmuxByte(QuoteChar(c) + rest) == Some((c, |QuoteChar(c)|))
  {
    var s := QuoteChar(c) + rest;
    if Control(c) {
      ControlMode.OctalRoundTrip(c as int);
      assert s[1..4] == ControlMode.Octal(c as int);
    }
  }

  predicate IsBytes(s: string) { forall i | 0 <= i < |s| :: s[i] as int < 256 }

  lemma {:induction false} ReadQuoted(v: string, rest: string, word: string)
    requires IsBytes(v)
    ensures TmuxQuoted(QuoteBody(v) + "\"" + rest, word) == Some((word + v, rest))
    decreases |v|
  {
    hide TmuxByte, QuoteChar;
    if v == "" {
      assert QuoteBody(v) + "\"" + rest == "\"" + rest;
      assert word + v == word;
    } else {
      var tail := QuoteBody(v[1..]) + "\"" + rest;
      var s := QuoteBody(v) + "\"" + rest;
      assert s == QuoteChar(v[0]) + tail;
      ReadQuotedChar(v[0], tail);
      assert s[|QuoteChar(v[0])|..] == tail;
      ReadQuoted(v[1..], rest, word + [v[0]]);
      assert word + [v[0]] + v[1..] == word + v;
    }
  }

  predicate SafeCommandName(v: string) { v != "" && forall i | 0 <= i < |v| :: NameChar(v[i]) }

  lemma {:induction false} ReadName(v: string, rest: string, word: string, homes: Homes)
    requires forall i | 0 <= i < |v| :: NameChar(v[i])
    ensures TmuxTokens(v + rest, Some(word), homes) == TmuxTokens(rest, Some(word + v), homes)
    decreases |v|
  {
    if v == "" {
      assert v + rest == rest && word + v == word;
    } else {
      assert (v + rest)[1..] == v[1..] + rest;
      ReadName(v[1..], rest, word + [v[0]], homes);
      assert word + [v[0]] + v[1..] == word + v;
    }
  }

  /** What was read stays in front of what is read next. */
  lemma {:induction false} QuotedExtends(s: string, word: string)
    ensures TmuxQuoted(s, word).Some? ==> word <= TmuxQuoted(s, word).value.0
    decreases |s|
  {
    hide TmuxByte;
    if s != "" && s[0] != '"' && TmuxByte(s).Some? {
      var (c, n) := TmuxByte(s).value;
      QuotedExtends(s[n..], word + [c]);
    }
  }

  lemma {:induction false} TokensExtend(s: string, word: string, homes: Homes)
    ensures var tokens := TmuxTokens(s, Some(word), homes);
            tokens.Some? ==> tokens.value != [] && word <= tokens.value[0]
    decreases |s|
  {
    hide TmuxOpened;
    if s != "" && s[0] != ' ' && NameChar(s[0]) {
      TokensExtend(s[1..], word + [s[0]], homes);
    }
  }

  // ------------------------------------------------------------- command line

  /** The quoted arguments, each after a space. */
  function QuotedTail(args: seq<string>): string {
    if args == [] then "" else " " + QuoteTmux(args[0]) + QuotedTail(args[1..])
  }

  /** provider_tmux.go `tmuxCommandLine`: a safe command name, then every argument quoted. */
  method TmuxCommandLine(args: seq<string>) returns (line: Option<string>)
    ensures line.Some? <==> args != [] && SafeCommandName(args[0]) && forall i | 1 <= i < |args| :: NUL !in args[i]
    ensures line.Some? ==> line.value == args[0] + QuotedTail(args[1..])
  {
    hide QuoteTmux, QuotedTail, SafeCommandName;
    if args == [] || !SafeCommandName(args[0]) {
      return None;
    }
    var out := args[0];
    var i := 1;
    LineStarts(args);
    while i < |args|
      invariant 1 <= i <= |args|
      invariant forall k | 1 <= k < i :: NUL !in args[k]
      invariant out == args[0] + QuotedTail(args[1..i])
    {
      var q := QuoteTmuxArg(args[i]);
      if q.None? {
        return None;
      }
      LineGrows(args, i);
      out := out + " " + q.value;
      i := i + 1;
    }
    assert args[1..i] == args[1..];
    return Some(out);
  }

  lemma LineStarts(args: seq<string>)
    requires args != []
    ensures args[0] + QuotedTail(args[1..1]) == args[0]
  {
  }

  lemma LineGrows(args: seq<string>, i: nat)
    requires 1 <= i < |args|
    ensures args[0] + QuotedTail(args[1..i]) + " " + QuoteTmux(args[i]) == args[0] + QuotedTail(args[1..i + 1])
  {
    hide QuoteTmux, QuotedTail;
    QuotedTailSnoc(args[1..i], args[i]);
    assert args[1..i + 1] == args[1..i] + [args[i]];
  }

  lemma {:induction false} QuotedTailSnoc(args: seq<string>, arg: string)
    ensures QuotedTail(args + [arg]) == QuotedTail(args) + " " + QuoteTmux(arg)
    decreases |args|
  {
    if args == [] {
      assert args + [arg] == [arg];
      assert QuotedTail([arg]) == " " + QuoteTmux(arg) + "";
    } else {
      assert (args + [arg])[1..] == args[1..] + [arg];
      QuotedTailSnoc(args[1..], arg);
    }
  }

  lemma QuoteOpens(text: string, word: string, homes: Homes)
    ensures TmuxTokens(" \"" + text, Some(word), homes) ==
            match TmuxOpened(text, homes) {
              case None => None
              case Some((read, rest)) =>
                match TmuxTokens(rest, Some(read), homes) { case None => None case Some(more) => Some([word] + more) }
            }
  {
    hide TmuxOpened;
    var s := " \"" + text;
    assert s[1..] == "\"" + text && s[1..][1..] == text;
  }

  lemma QuotedStart(arg: string, rest: string)
    ensures Tilde(QuoteBody(arg) + "\"" + rest) <==> Tilde(arg)
  {
    if arg == "" {
      assert QuoteBody(arg) + "\"" + rest == "\"" + rest;
    }
  }

  lemma QuotedText(arg: string, rest: string)
    ensures " " + QuoteTmux(arg) + rest == " \"" + (QuoteBody(arg) + "\"" + rest)
  {
  }

  /** One quoted argument without a leading tilde ends the word before it and begins the next. */
  lemma ReadQuotedArg(arg: string, rest: string, word: string, homes: Homes)
    requires IsBytes(arg) && !Tilde(arg)
    ensures TmuxTokens(" " + QuoteTmux(arg) + rest, Some(word), homes) ==
            match TmuxTokens(rest, Some(arg), homes) { case None => None case Some(more) => Some([word] + more) }
  {
    hide QuoteBody, QuoteTmux, TmuxQuoted, TmuxTokens;
    QuotedText(arg, rest);
    QuotedStart(arg, rest);
    ReadQuoted(arg, rest, "");
    assert "" + arg == arg;
    QuoteOpens(QuoteBody(arg) + "\"" + rest, word, homes);
  }

  /** A quoted argument with a leading tilde comes out as something else, or not at all. */
  lemma TildeIsReplaced(arg: string, rest: string, word: string, homes: Homes)
    requires Tilde(arg) && ProperHomes(homes)
    ensures var tokens := TmuxTokens(" " + QuoteTmux(arg) + rest, Some(word), homes);
            tokens.Some? ==> |tokens.value| >= 2 && tokens.value[1] != arg
  {
    hide QuoteBody, QuoteTmux, TmuxQuoted, TmuxTokens, UserName;
    var text := QuoteBody(arg) + "\"" + rest;
    QuotedText(arg, rest);
    QuotedStart(arg, rest);
    QuoteOpens(text, word, homes);
    var user := UserName(text[1..]);
    if homes(user).Some? && TmuxOpened(text, homes).Some? {
      var (read, after) := TmuxOpened(text, homes).value;
      QuotedExtends(text[1 + |user|..], homes(user).value);
      TokensExtend(after, read, homes);
    }
  }

  lemma {:induction false} ReadTail(args: seq<string>, word: string, homes: Homes)
    requires forall a | a in args :: IsBytes(a)
    requires ProperHomes(homes) || forall a | a in args :: !Tilde(a)
    ensures TmuxTokens(QuotedTail(args), Some(word), homes) == Some([word] + args) <==>
            forall a | a in args :: !Tilde(a)
    decreases |args|
  {
    if args != [] {
      hide TmuxTokens, QuoteTmux, ProperHomes, Tilde;
      var first, rest := args[0], args[1..];
      assert first in args && args == [first] + rest;
      if Tilde(first) {
        TildeIsReplaced(first, QuotedTail(rest), word, homes);
        assert ([word] + args)[1] == first;
      } else {
        ReadQuotedArg(first, QuotedTail(rest), word, homes);
        ReadTail(rest, first, homes);
        PrependSame(word, TmuxTokens(QuotedTail(rest), Some(first), homes), [first] + rest);
      }
    } else {
      assert [word] + args == [word];
    }
  }

  lemma PrependSame(word: string, more: Option<seq<string>>, rest: seq<string>)
    ensures (match more { case None => None case Some(m) => Some([word] + m) }) == Some([word] + rest) <==>
            more == Some(rest)
  {
    if more.Some? && [word] + more.value == [word] + rest {
      assert more.value == ([word] + more.value)[1..] == ([word] + rest)[1..] == rest;
    }
  }

  /** tmux reads back exactly the arguments that were quoted if, and only if, none after the command name
      begins with a tilde. (Were a home directory itself to begin with a tilde, one that does could be read
      back by chance.) */
  lemma TmuxReadsBack(args: seq<string>, homes: Homes)
    requires args != [] && SafeCommandName(args[0]) && forall a | a in args :: IsBytes(a)
    requires ProperHomes(homes) || forall a | a in args[1..] :: !Tilde(a)
    ensures TmuxTokens(args[0] + QuotedTail(args[1..]), None, homes) == Some(args) <==>
            forall a | a in args[1..] :: !Tilde(a)
  {
    var name, tail := args[0], QuotedTail(args[1..]);
    ReadWholeName(name, tail, homes);
    hide ProperHomes, QuotedTail;
    assert forall a | a in args[1..] :: a in args;
    ReadTail(args[1..], name, homes);
    assert [name] + args[1..] == args;
  }

  /** What the provider sends for one variable of the workload's environment. */
  function EnvironmentArgs(key: string, value: string): seq<string> { ["set-environment", "-g", key, value] }

  predicate KeyChar(c: char) { 'A' <= c <= 'Z' || 'a' <= c <= 'z' || '0' <= c <= '9' || c == '_' }

  predicate ValidEnvKey(key: string) {
    key != "" && !('0' <= key[0] <= '9') && forall i | 0 <= i < |key| :: KeyChar(key[i])
  }

  /** provider_tmux.go `installWorkloadEnvironment`: tmux stores the value that was meant if, and only if, it
      does not begin with a tilde. */
  lemma EnvironmentReadsBack(key: string, value: string, homes: Homes)
    requires ValidEnvKey(key) && IsBytes(value) && ProperHomes(homes)
    ensures var args := EnvironmentArgs(key, value);
            TmuxTokens(args[0] + QuotedTail(args[1..]), None, homes) == Some(args) <==> !Tilde(value)
  {
    var args := EnvironmentArgs(key, value);
    assert KeyChar(key[0]);
    assert SafeCommandName("set-environment");
    assert IsBytes(key) by {
      forall i | 0 <= i < |key|
        ensures key[i] as int < 256
      {
        assert KeyChar(key[i]);
      }
    }
    assert args[1..] == ["-g", key, value];
    hide TmuxTokens, QuotedTail, ProperHomes;
    TmuxReadsBack(args, homes);
  }

  /** The last argument, a lone tilde, is read as the home directory. */
  lemma LoneTilde(word: string, homes: Homes, home: string)
    requires homes("") == Some(home)
    ensures TmuxTokens(QuotedTail(["~"]), Some(word), homes) == Some([word, home])
  {
    assert QuoteBody("~") == "~" by { assert "~"[1..] == ""; }
    var text := "~\"";
    assert ["~"][1..] == [];
    assert QuotedTail(["~"]) == " \"" + text;
    assert text[1..] == "\"" && UserName(text[1..]) == "" && text[1..][1..] == "";
    assert TmuxQuoted("\"", home) == Some((home, ""));
    assert TmuxOpened(text, homes) == Some((home, ""));
    QuoteOpens(text, word, homes);
    hide TmuxOpened, TmuxQuoted;
    assert TmuxTokens("", Some(home), homes) == Some([home]);
    assert [word] + [home] == [word, home];
  }

  /** A variable set to a lone tilde is stored as the home directory instead. */
  lemma TildeValueIsReplaced(homes: Homes, home: string)
    requires homes("") == Some(home)
    ensures var args := EnvironmentArgs("K", "~");
            TmuxTokens(args[0] + QuotedTail(args[1..]), None, homes) == Some(["set-environment", "-g", "K", home])
  {
    hide TmuxTokens, QuoteTmux;
    var args, name := EnvironmentArgs("K", "~"), "set-environment";
    assert args[1..] == ["-g", "K", "~"] && args[1..][1..] == ["K", "~"] && args[1..][1..][1..] == ["~"];
    var last := QuotedTail(["~"]);
    var middle := " " + QuoteTmux("K") + last;
    assert QuotedTail(["K", "~"]) == middle;
    assert QuotedTail(args[1..]) == " " + QuoteTmux("-g") + middle;
    hide QuotedTail;
    LoneTilde("K", homes, home);
    ReadQuotedArg("K", last, "-g", homes);
    assert ["-g"] + ["K", home] == ["-g", "K", home];
    ReadQuotedArg("-g", middle, name, homes);
    assert [name] + ["-g", "K", home] == [name, "-g", "K", home];
    ReadWholeName(name, " " + QuoteTmux("-g") + middle, homes);
  }

  lemma ReadWholeName(name: string, tail: string, homes: Homes)
    requires SafeCommandName(name)
    ensures TmuxTokens(name + tail, None, homes) == TmuxTokens(tail, Some(name), homes)
  {
    assert (name + tail)[1..] == name[1..] + tail;
    ReadName(name[1..], tail, [name[0]], homes);
    assert [name[0]] + name[1..] == name && "" + [name[0]] == [name[0]];
  }

  /** No line break, no NUL and no other control character. */
  predicate OneLine(s: string) { forall i | 0 <= i < |s| :: 0x20 <= s[i] as int && s[i] as int != 0x7f }

  lemma QuoteCharOneLine(c: char)
    requires c != NUL
    ensures OneLine(QuoteChar(c))
  {
    forall i | 0 <= i < |QuoteChar(c)|
      ensures QuoteChar(c)[i] as int >= 0x20 && QuoteChar(c)[i] as int != 0x7f
    {
      if Control(c) && i > 0 {
        assert ControlMode.IsOctal(ControlMode.Octal(c as int)[i - 1]);
      }
    }
  }

  lemma {:induction false} QuoteBodyOneLine(v: string)
    requires NUL !in v
    ensures OneLine(QuoteBody(v))
    decreases |v|
  {
    if v != "" {
      QuoteCharOneLine(v[0]);
      QuoteBodyOneLine(v[1..]);
      hide QuoteChar;
    }
  }

  lemma {:induction false} QuotedTailOneLine(args: seq<string>)
    requires forall a | a in args :: NUL !in a
    ensures OneLine(QuotedTail(args))
    decreases |args|
  {
    if args != [] {
      assert args[0] in args;
      QuoteBodyOneLine(args[0]);
      QuotedTailOneLine(args[1..]);
      hide QuoteBody;
    }
  }

  /** Every command line the provider builds is one non-empty line, so the control client's
      single-line check never refuses it. */
  lemma CommandLineIsOneLine(args: seq<string>)
    requires args != [] && SafeCommandName(args[0]) && forall a | a in args[1..] :: NUL !in a
    ensures var line := args[0] + QuotedTail(args[1..]); line != "" && OneLine(line)
  {
    QuotedTailOneLine(args[1..]);
    forall i | 0 <= i < |args[0]|
      ensures args[0][i] as int >= 0x20 && args[0][i] as int != 0x7f
    {
      assert NameChar(args[0][i]);
    }
  }

  // ------------------------------------------------------------ shell quoting

  /** The inside of a shell-quoted string: each single quote closes, double-quotes itself and reopens. */
  function ShellBody(v: string): string {
    if v == "" then ""
    else ShellChar(v[0]) + ShellBody(v[1..])
  }

  function ShellChar(c: char): string { if c == '\'' then "'\"'\"'" else [c] }

  /** provider_tmux.go `shellQuote`. */
  function ShellQuote(v: string): string { "'" + ShellBody(v) + "'" }

  datatype Token = Word(text: string) | Operator(op: char)

  datatype Mode = Plain | Single | Double

  /** Characters with no meaning of their own outside quotes. */
  predicate PlainChar(c: char) {
    'a' <= c <= 'z' || 'A' <= c <= 'Z' || '0' <= c <= '9' || c in {'_', '-', '=', '/', '.', ':', ',', '+', '@', '%'}
  }

  function Flush(word: Option<string>): seq<Token> { if word.Some? then [Word(word.value)] else [] }

  function Then(tokens: seq<Token>, rest: Option<seq<Token>>): Option<seq<Token>> {
    if rest.None? then None else Some(tokens + rest.value)
  }

  /** Sections 2.2.2, 2.2.3 and 2.3 of the POSIX Shell Command Language for the characters a wrapper
      uses: single quotes keep every byte, double quotes keep every byte but `$`, backquote and
      backslash, blanks and operators separate words. Anything that would expand is refused. */
  function ShellTokens(s: string, mode: Mode, word: Option<string>): Option<seq<Token>> {
    var start := if word.Some? then word.value else "";
    if s == "" then if mode == Plain then Some(Flush(word)) else None
    else
      match mode
      case Single =>
        if s[0] == '\'' then ShellTokens(s[1..], Plain, Some(start))
        else ShellTokens(s[1..], Single, Some(start + [s[0]]))
      case Double =>
        if s[0] == '"' then ShellTokens(s[1..], Plain, Some(start))
        else if s[0] in {'$', '`', '\\'} then None
        else ShellTokens(s[1..], Double, Some(start + [s[0]]))
      case Plain =>
        if s[0] == ' ' then Then(Flush(word), ShellTokens(s[1..], Plain, None))
        else if s[0] == '\'' then ShellTokens(s[1..], Single, Some(start))
        else if s[0] == '"' then ShellTokens(s[1..], Double, Some(start))
        else if s[0] in {';', '<'} then Then(Flush(word) + [Operator(s[0])], ShellTokens(s[1..], Plain, None))
        else if PlainChar(s[0]) then ShellTokens(s[1..], Plain, Some(start + [s[0]]))
        else None
  }

  /** The five characters that stand for a single quote put exactly one quote into the word. */
  lemma ReadQuoteMark(rest: string, word: string)
    ensures ShellTokens("'\"'\"'" + rest, Single, Some(word)) == ShellTokens(rest, Single, Some(word + "'"))
  {
    var s := "'\"'\"'" + rest;
    assert s[1..] == "\"'\"'" + rest && s[1..][1..] == "'\"'" + rest;
    assert s[1..][1..][1..] == "\"'" + rest && s[1..][1..][1..][1..] == "'" + rest;
    assert ("'" + rest)[1..] == rest;
    calc {
      ShellTokens(s, Single, Some(word));
      ShellTokens("\"'\"'" + rest, Plain, Some(word));
      ShellTokens("'\"'" + rest, Double, Some(word));
      ShellTokens("\"'" + rest, Double, Some(word + "'"));
      ShellTokens("'" + rest, Plain, Some(word + "'"));
      ShellTokens(rest, Single, Some(word + "'"));
    }
  }

  lemma ReadSingle(c: char, rest: string, word: string)
    requires c != '\''
    ensures ShellTokens([c] + rest, Single, Some(word)) == ShellTokens(rest, Single, Some(word + [c]))
  {
    assert ([c] + rest)[1..] == rest;
  }

  lemma ReadShellChar(c: char, rest: string, word: string)
    ensures ShellTokens(ShellChar(c) + rest, Single, Some(word)) == ShellTokens(rest, Single, Some(word + [c]))
  {
    hide ShellTokens;
    if c == '\'' {
      ReadQuoteMark(rest, word);
      assert word + "'" == word + [c];
    } else {
      ReadSingle(c, rest, word);
    }
  }

  lemma {:induction false} ReadShellBody(v: string, rest: string, word: string)
    ensures ShellTokens(ShellBody(v) + "'" + rest, Single, Some(word)) == ShellTokens(rest, Plain, Some(word + v))
    decreases |v|
  {
    if v == "" {
      assert ShellBody(v) + "'" + rest == "'" + rest;
      assert ("'" + rest)[1..] == rest && word + v == word;
    } else {
      hide ShellTokens;
      hide ShellChar;
      var tail := ShellBody(v[1..]) + "'" + rest;
      assert ShellBody(v) + "'" + rest == ShellChar(v[0]) + tail;
      ReadShellChar(v[0], tail, word);
      ReadShellBody(v[1..], rest, word + [v[0]]);
      assert word + [v[0]] + v[1..] == word + v;
    }
  }

  /** The shell reads a quoted value as one word piece holding exactly that value. */
  lemma ReadShellQuoted(v: string, rest: string)
    ensures ShellTokens(ShellQuote(v) + rest, Plain, None) == ShellTokens(rest, Plain, Some(v))
  {
    var s := ShellQuote(v) + rest;
    assert s[1..] == ShellBody(v) + "'" + rest;
    ReadShellBody(v, rest, "");
    assert "" + v == v;
  }

  lemma {:induction false} ReadPlain(v: string, rest: string, word: string)
    requires forall i | 0 <= i < |v| :: PlainChar(v[i])
    ensures ShellTokens(v + rest, Plain, Some(word)) == ShellTokens(rest, Plain, Some(word + v))
    decreases |v|
  {
    if v == "" {
      assert v + rest == rest && word + v == word;
    } else {
      assert (v + rest)[1..] == v[1..] + rest;
      ReadPlain(v[1..], rest, word + [v[0]]);
      assert word + [v[0]] + v[1..] == word + v;
    }
  }

  lemma ReadPlainWord(v: string, rest: string)
    requires v != "" && forall i | 0 <= i < |v| :: PlainChar(v[i])
    ensures ShellTokens(v + " " + rest, Plain, None) == Then([Word(v)], ShellTokens(rest, Plain, None))
  {
    var tail := " " + rest;
    assert v + " " + rest == v + tail && (v + tail)[1..] == v[1..] + tail;
    ReadPlain(v[1..], tail, [v[0]]);
    assert [v[0]] + v[1..] == v && "" + [v[0]] == [v[0]];
    assert tail[1..] == rest;
  }

  // ------------------------------------------------------------------ wrapper

  datatype SpecMode = ShellMode | ArgvMode | OtherMode

  datatype Spec = Spec(mode: SpecMode, tty: bool, cwd: string, executable: string,
                       shell: string, command: string, argv: seq<string>)

  predicate IsAbs(path: string) { path != "" && path[0] == '/' }

  /** provider_tmux.go `validateExecutionSpec`. */
  predicate ValidSpec(spec: Spec) {
    && !spec.tty && IsAbs(spec.cwd) && IsAbs(spec.executable)
    && match spec.mode
       case ShellMode => spec.shell != "" && spec.executable == spec.shell && spec.command != "" && spec.argv == []
       case ArgvMode => spec.argv != [] && spec.argv[0] != "" && spec.command == "" && spec.shell == ""
       case OtherMode => false
  }

  /** The two forms a workload can take: a login shell that runs a command, or an argument vector. */
  lemma ValidExactlyWhen(spec: Spec)
    ensures ValidSpec(spec) <==>
            && spec.cwd != "" && spec.cwd[0] == '/' && spec.executable != "" && spec.executable[0] == '/'
            && (|| (spec.command != "" &&
                   spec == Spec(ShellMode, false, spec.cwd, spec.executable, spec.executable, spec.command, []))
                || (spec.argv != [] && spec.argv[0] != "" &&
                   spec == Spec(ArgvMode, false, spec.cwd, spec.executable, "", "", spec.argv)))
  {
  }

  /** Each value quoted, after a space. */
  function ShellTail(values: seq<string>): string {
    if values == [] then "" else " " + ShellQuote(values[0]) + ShellTail(values[1..])
  }

  /** provider_tmux.go `workloadWrapper`: wait at the gate, then exec the workload. */
  function WorkloadWrapper(spec: Spec, gate: string): Option<string> {
    if !ValidSpec(spec) then None
    else
      var target :=
        if spec.mode == ShellMode then
          "exec -a " + ShellQuote(spec.shell) + " " + ShellQuote(spec.executable) + " -lc " + ShellQuote(spec.command)
        else "exec -a" + ShellTail([spec.argv[0], spec.executable] + spec.argv[1..]);
      Some("IFS= read -r _sb_gate < " + ShellQuote(gate) + "; " + target)
  }

  function Words(values: seq<string>): seq<Token> {
    if values == [] then [] else [Word(values[0])] + Words(values[1..])
  }

  function GateTokens(gate: string): seq<Token> {
    [Word("IFS="), Word("read"), Word("-r"), Word("_sb_gate"), Operator('<'), Word(gate), Operator(';')]
  }

  /** What the shell must see: read the gate, then exec with the workload's own argv. */
  function WrapperTokens(spec: Spec, gate: string): seq<Token>
    requires ValidSpec(spec)
  {
    GateTokens(gate) +
    Words(["exec", "-a"] +
          if spec.mode == ShellMode then [spec.shell, spec.executable, "-lc", spec.command]
          else [spec.argv[0], spec.executable] + spec.argv[1..])
  }

  lemma {:induction false} ReadShellTail(values: seq<string>, word: string)
    ensures ShellTokens(ShellTail(values), Plain, Some(word)) == Some([Word(word)] + Words(values))
    decreases |values|
  {
    if values == [] {
      assert [Word(word)] + Words(values) == [Word(word)];
    } else {
      var rest := ShellTail(values[1..]);
      var s := ShellTail(values);
      assert s == " " + (ShellQuote(values[0]) + rest) && s[1..] == ShellQuote(values[0]) + rest;
      ReadShellQuoted(values[0], rest);
      ReadShellTail(values[1..], values[0]);
    }
  }

  lemma ThenThen(a: seq<Token>, b: seq<Token>, rest: Option<seq<Token>>)
    ensures Then(a, Then(b, rest)) == Then(a + b, rest)
  {
    if rest.Some? {
      assert a + (b + rest.value) == a + b + rest.value;
    }
  }

  lemma ReadOperator(op: char, word: Option<string>, rest: string)
    requires op in {';', '<'}
    ensures ShellTokens([op] + " " + rest, Plain, word) ==
            Then(Flush(word) + [Operator(op)], ShellTokens(rest, Plain, None))
  {
    var s := [op] + " " + rest;
    assert s[1..] == " " + rest && (" " + rest)[1..] == rest;
    ThenThen(Flush(word) + [Operator(op)], [], ShellTokens(rest, Plain, None));
    assert Flush(word) + [Operator(op)] + [] == Flush(word) + [Operator(op)];
  }

  /** The gate part: four plain words, a redirection from the quoted gate, and a separator. */
  lemma ReadGate(gate: string, target: string)
    ensures ShellTokens("IFS= read -r _sb_gate < " + ShellQuote(gate) + "; " + target, Plain, None) ==
            Then(GateTokens(gate), ShellTokens(target, Plain, None))
  {
    hide ShellTokens, ShellQuote;
    var redirect := "<" + " " + (ShellQuote(gate) + (";" + " " + target));
    GateText(ShellQuote(gate), target);
    ReadPlainWord("IFS=", "read" + " " + ("-r" + " " + ("_sb_gate" + " " + redirect)));
    ReadPlainWord("read", "-r" + " " + ("_sb_gate" + " " + redirect));
    ReadPlainWord("-r", "_sb_gate" + " " + redirect);
    ReadPlainWord("_sb_gate", redirect);
    ReadRedirect(gate, target);
    GateTokensJoin(gate, ShellTokens(target, Plain, None));
  }

  lemma GateText(gate: string, target: string)
    ensures "IFS= read -r _sb_gate < " + gate + "; " + target ==
            "IFS=" + " " +
              ("read" + " " + ("-r" + " " + ("_sb_gate" + " " + ("<" + " " + (gate + (";" + " " + target))))))
  {
    assert "IFS= read -r _sb_gate < " == "IFS=" + " " + "read" + " " + "-r" + " " + "_sb_gate" + " " + "<" + " ";
    assert "; " == ";" + " ";
  }

  lemma ReadRedirect(gate: string, target: string)
    ensures ShellTokens("<" + " " + (ShellQuote(gate) + (";" + " " + target)), Plain, None) ==
            Then([Operator('<'), Word(gate), Operator(';')], ShellTokens(target, Plain, None))
  {
    hide ShellTokens, ShellQuote;
    ReadOperator('<', None, ShellQuote(gate) + (";" + " " + target));
    ReadShellQuoted(gate, ";" + " " + target);
    ReadOperator(';', Some(gate), target);
    assert Flush(None) + [Operator('<')] == [Operator('<')];
    assert Flush(Some(gate)) + [Operator(';')] == [Word(gate), Operator(';')];
    ThenThen([Operator('<')], [Word(gate), Operator(';')], ShellTokens(target, Plain, None));
    assert [Operator('<')] + [Word(gate), Operator(';')] == [Operator('<'), Word(gate), Operator(';')];
  }

  lemma GateTokensJoin(gate: string, end: Option<seq<Token>>)
    ensures Then([Word("IFS=")], Then([Word("read")], Then([Word("-r")], Then([Word("_sb_gate")],
              Then([Operator('<'), Word(gate), Operator(';')], end))))) == Then(GateTokens(gate), end)
  {
    var t := [Operator('<'), Word(gate), Operator(';')];
    ThenThen([Word("_sb_gate")], t, end);
    ThenThen([Word("-r")], [Word("_sb_gate")] + t, end);
    ThenThen([Word("read")], [Word("-r")] + ([Word("_sb_gate")] + t), end);
    ThenThen([Word("IFS=")], [Word("read")] + ([Word("-r")] + ([Word("_sb_gate")] + t)), end);
    assert GateTokens(gate) == [Word("IFS=")] + ([Word("read")] + ([Word("-r")] + ([Word("_sb_gate")] + t)));
  }

  lemma ReadExec(rest: string)
    ensures ShellTokens("exec" + " " + ("-a" + " " + rest), Plain, None) ==
            Then([Word("exec"), Word("-a")], ShellTokens(rest, Plain, None))
  {
    hide ShellTokens;
    ReadPlainWord("exec", "-a" + " " + rest);
    ReadPlainWord("-a", rest);
    ThenThen([Word("exec")], [Word("-a")], ShellTokens(rest, Plain, None));
    assert [Word("exec")] + [Word("-a")] == [Word("exec"), Word("-a")];
  }

  lemma ReadArgvTarget(values: seq<string>)
    requires values != []
    ensures ShellTokens("exec -a" + ShellTail(values), Plain, None) == Some(Words(["exec", "-a"] + values))
  {
    hide ShellTokens, ShellQuote;
    var quoted := ShellQuote(values[0]) + ShellTail(values[1..]);
    assert "exec -a" + ShellTail(values) == "exec" + " " + ("-a" + " " + quoted);
    ReadExec(quoted);
    ReadShellQuoted(values[0], ShellTail(values[1..]));
    ReadShellTail(values[1..], values[0]);
    WordsOfExec(values);
  }

  lemma WordsOfExec(values: seq<string>)
    requires values != []
    ensures Words(["exec", "-a"] + values) == [Word("exec"), Word("-a")] + ([Word(values[0])] + Words(values[1..]))
  {
    var all := ["exec", "-a"] + values;
    assert all[1..] == ["-a"] + values && (["-a"] + values)[1..] == values;
  }

  lemma ReadShellTarget(shell: string, executable: string, command: string)
    ensures ShellTokens("exec -a " + ShellQuote(shell) + " " + ShellQuote(executable) + " -lc " + ShellQuote(command),
                        Plain, None) ==
            Some([Word("exec"), Word("-a"), Word(shell), Word(executable), Word("-lc"), Word(command)])
  {
    hide ShellQuote, ShellTokens;
    var last := ShellQuote(command);
    var flag := "-lc" + " " + last;
    var second := ShellQuote(executable) + (" " + flag);
    var first := ShellQuote(shell) + (" " + second);
    assert "exec -a " + ShellQuote(shell) + " " + ShellQuote(executable) + " -lc " + ShellQuote(command) ==
           "exec" + " " + ("-a" + " " + first);
    ReadExec(first);
    ReadShellQuoted(shell, " " + second);
    ReadShellQuoted(executable, " " + flag);
    ReadBlank(shell, second);
    ReadBlank(executable, flag);
    ReadPlainWord("-lc", last);
    ReadShellQuoted(command, "");
    assert last + "" == last;
    ReadEnd(command);
    var all := [Word("exec"), Word("-a"), Word(shell), Word(executable), Word("-lc"), Word(command)];
    assert all == [Word("exec"), Word("-a")] +
      ([Word(shell)] + ([Word(executable)] + ([Word("-lc")] + [Word(command)])));
  }

  lemma ReadEnd(word: string)
    ensures ShellTokens("", Plain, Some(word)) == Some([Word(word)])
  {
  }

  lemma ReadBlank(word: string, rest: string)
    ensures ShellTokens(" " + rest, Plain, Some(word)) == Then([Word(word)], ShellTokens(rest, Plain, None))
  {
    assert (" " + rest)[1..] == rest;
  }

  /** For every valid workload, the shell splits the wrapper into exactly the gate redirection and the
      workload's argv0, executable and arguments. */
  lemma ShellReadsBackWorkload(spec: Spec, gate: string)
    requires ValidSpec(spec)
    ensures ShellTokens(WorkloadWrapper(spec, gate).value, Plain, None) == Some(WrapperTokens(spec, gate))
  {
    hide ShellTokens, ShellQuote, ShellTail;
    if spec.mode == ShellMode {
      var target :=
        "exec -a " + ShellQuote(spec.shell) + " " + ShellQuote(spec.executable) + " -lc " + ShellQuote(spec.command);
      ReadGate(gate, target);
      ReadShellTarget(spec.shell, spec.executable, spec.command);
      WordsOfExec([spec.shell, spec.executable, "-lc", spec.command]);
      WordsOfFour(spec.shell, spec.executable, "-lc", spec.command);
      assert [Word("exec"), Word("-a"), Word(spec.shell), Word(spec.executable), Word("-lc"), Word(spec.command)] ==
             [Word("exec"), Word("-a")] +
             ([Word(spec.shell)] + [Word(spec.executable), Word("-lc"), Word(spec.command)]);
    } else {
      var values := [spec.argv[0], spec.executable] + spec.argv[1..];
      ReadGate(gate, "exec -a" + ShellTail(values));
      ReadArgvTarget(values);
    }
  }

  lemma WordsOfFour(a: string, b: string, c: string, d: string)
    ensures Words([a, b, c, d][1..]) == [Word(b), Word(c), Word(d)]
  {
    assert [a, b, c, d][1..] == [b, c, d] && [b, c, d][1..] == [c, d] && [c, d][1..] == [d] && [d][1..] == [];
    assert Words([d]) == [Word(d)];
    assert Words([c, d]) == [Word(c), Word(d)];
  }

  predicate All(s: string, ok: char -> bool) { forall i | 0 <= i < |s| :: ok(s[i]) }

  lemma AllConcat(a: string, b: string, ok: char -> bool)
    ensures All(a + b, ok) <==> All(a, ok) && All(b, ok)
  {
    if All(a + b, ok) {
      assert forall i | 0 <= i < |a| :: a[i] == (a + b)[i];
      assert forall i | 0 <= i < |b| :: b[i] == (a + b)[|a| + i];
    }
  }

  lemma {:induction false} AllShellBody(v: string, ok: char -> bool)
    requires ok('\'') && ok('"')
    ensures All(ShellBody(v), ok) <==> All(v, ok)
    decreases |v|
  {
    if v != "" {
      AllShellBody(v[1..], ok);
      AllConcat(ShellChar(v[0]), ShellBody(v[1..]), ok);
      AllConcat([v[0]], v[1..], ok);
      assert [v[0]] + v[1..] == v;
      assert All(ShellChar(v[0]), ok) <==> All([v[0]], ok) by {
        assert ShellChar(v[0]) == [v[0]] || v[0] == '\'';
      }
      hide ShellChar;
    }
  }

  lemma AllShellQuote(v: string, ok: char -> bool)
    requires ok('\'') && ok('"')
    ensures All(ShellQuote(v), ok) <==> All(v, ok)
  {
    hide ShellBody;
    AllShellBody(v, ok);
    AllConcat("'", ShellBody(v), ok);
    AllConcat("'" + ShellBody(v), "'", ok);
    assert "'"[0] == '\'';
  }

  lemma {:induction false} AllShellTail(values: seq<string>, ok: char -> bool)
    requires ok('\'') && ok('"') && ok(' ')
    ensures All(ShellTail(values), ok) <==> forall v | v in values :: All(v, ok)
    decreases |values|
  {
    if values != [] {
      hide ShellQuote;
      AllShellTail(values[1..], ok);
      AllShellQuote(values[0], ok);
      AllConcat(" ", ShellQuote(values[0]), ok);
      AllConcat(" " + ShellQuote(values[0]), ShellTail(values[1..]), ok);
      assert " "[0] == ' ';
      assert forall v :: v in values <==> v == values[0] || v in values[1..];
    }
  }

  /** The values a workload puts into its wrapper. */
  function Values(spec: Spec): seq<string>
    requires ValidSpec(spec)
  {
    if spec.mode == ShellMode then [spec.shell, spec.executable, spec.command]
    else [spec.argv[0], spec.executable] + spec.argv[1..]
  }

  /** A property of single bytes that the wrapper's fixed text has holds of the wrapper exactly when it
      holds of the gate and of every value. */
  lemma AllWrapper(spec: Spec, gate: string, ok: char -> bool)
    requires ValidSpec(spec)
    requires ok('\'') && ok('"') && ok(' ')
    requires All("IFS= read -r _sb_gate < ", ok) && All("; ", ok) && All("exec -a ", ok) && All(" -lc ", ok)
    ensures All(WorkloadWrapper(spec, gate).value, ok) <==> All(gate, ok) && forall v | v in Values(spec) :: All(v, ok)
  {
    hide All, ShellQuote, ShellTail;
    AllShellQuote(gate, ok);
    var head := "IFS= read -r _sb_gate < ";
    AllConcat(head, ShellQuote(gate), ok);
    AllConcat(head + ShellQuote(gate), "; ", ok);
    if spec.mode == ShellMode {
      AllShellTarget(spec.shell, spec.executable, spec.command, ok);
      var target :=
        "exec -a " + ShellQuote(spec.shell) + " " + ShellQuote(spec.executable) + " -lc " + ShellQuote(spec.command);
      AllConcat(head + ShellQuote(gate) + "; ", target, ok);
    } else {
      var target := "exec -a" + ShellTail(Values(spec));
      AllConcat("exec -a", " ", ok);
      assert "exec -a" + " " == "exec -a ";
      AllConcat("exec -a", ShellTail(Values(spec)), ok);
      AllShellTail(Values(spec), ok);
      AllConcat(head + ShellQuote(gate) + "; ", target, ok);
    }
  }

  lemma AllShellTarget(shell: string, executable: string, command: string, ok: char -> bool)
    requires ok('\'') && ok('"') && ok(' ') && All("exec -a ", ok) && All(" -lc ", ok)
    ensures All("exec -a " + ShellQuote(shell) + " " + ShellQuote(executable) + " -lc " + ShellQuote(command), ok) <==>
            All(shell, ok) && All(executable, ok) && All(command, ok)
  {
    assert All(" ", ok);
    hide All, ShellQuote;
    AllShellQuote(shell, ok);
    AllShellQuote(executable, ok);
    AllShellQuote(command, ok);
    var a := "exec -a " + ShellQuote(shell);
    AllConcat("exec -a ", ShellQuote(shell), ok);
    AllConcat(a, " ", ok);
    AllConcat(a + " ", ShellQuote(executable), ok);
    AllConcat(a + " " + ShellQuote(executable), " -lc ", ok);
    AllConcat(a + " " + ShellQuote(executable) + " -lc ", ShellQuote(command), ok);
  }

  ghost predicate NulFree(s: string) { NUL !in s }

  predicate NotNul(c: char) { c != NUL }

  predicate IsByte(c: char) { c as int < 256 }

  lemma NulFreeIsAll(s: string)
    ensures NulFree(s) <==> All(s, NotNul)
  {
    if NUL in s {
      var i :| 0 <= i < |s| && s[i] == NUL;
      assert !NotNul(s[i]);
    }
  }

  lemma BytesIsAll(s: string)
    ensures IsBytes(s) <==> All(s, IsByte)
  {
  }

  lemma FixedText()
    ensures All("IFS= read -r _sb_gate < ", NotNul) && All("; ", NotNul)
    ensures All("exec -a ", NotNul) && All(" -lc ", NotNul)
    ensures All("IFS= read -r _sb_gate < ", IsByte) && All("; ", IsByte)
    ensures All("exec -a ", IsByte) && All(" -lc ", IsByte)
  {
  }

  lemma WrapperBytes(spec: Spec, gate: string)
    requires ValidSpec(spec)
    ensures IsBytes(gate) && (forall v | v in Values(spec) :: IsBytes(v)) ==> IsBytes(WorkloadWrapper(spec, gate).value)
    ensures NulFree(WorkloadWrapper(spec, gate).value) <==> NulFree(gate) && forall v | v in Values(spec) :: NulFree(v)
  {
    WrapperIsBytes(spec, gate);
    WrapperIsNulFree(spec, gate);
    hide *;
  }

  lemma WrapperIsBytes(spec: Spec, gate: string)
    requires ValidSpec(spec)
    ensures IsBytes(gate) && (forall v | v in Values(spec) :: IsBytes(v)) ==> IsBytes(WorkloadWrapper(spec, gate).value)
  {
    var wrapper := WorkloadWrapper(spec, gate).value;
    hide WorkloadWrapper, Values, ValidSpec, All;
    FixedText();
    AllWrapper(spec, gate, IsByte);
    BytesIsAll(wrapper);
    BytesIsAll(gate);
    hide IsBytes;
    forall v | v in Values(spec)
      ensures IsBytes(v) <==> All(v, IsByte)
    {
      BytesIsAll(v);
    }
  }

  lemma WrapperIsNulFree(spec: Spec, gate: string)
    requires ValidSpec(spec)
    ensures NulFree(WorkloadWrapper(spec, gate).value) <==> NulFree(gate) && forall v | v in Values(spec) :: NulFree(v)
  {
    var wrapper := WorkloadWrapper(spec, gate).value;
    hide WorkloadWrapper, Values, ValidSpec, NulFree;
    hide All;
    FixedText();
    AllWrapper(spec, gate, NotNul);
    NulFreeIsAll(wrapper);
    NulFreeIsAll(gate);
    forall v | v in Values(spec)
      ensures NulFree(v) <==> All(v, NotNul)
    {
      NulFreeIsAll(v);
    }
  }

  /** provider_session.go `providerSessionNames`. */
  function SessionName(suffix: string): string { "sb_" + suffix }

  function SessionArgs(suffix: string, cwd: string, wrapper: string): seq<string> {
    ["new-session", "-d", "-s", SessionName(suffix), "-c", cwd, wrapper]
  }

  lemma SessionArgsAreSafe(suffix: string, cwd: string, wrapper: string)
    ensures var args := SessionArgs(suffix, cwd, wrapper);
            && |args| == 7 && SafeCommandName(args[0])
            && args[..6] == ["new-session", "-d", "-s", SessionName(suffix), "-c", cwd] && args[6] == wrapper
            && ((forall i | 1 <= i < |args| :: NUL !in args[i]) <==>
               NulFree(suffix) && NulFree(cwd) && NulFree(wrapper))
            && (IsBytes(suffix) && IsBytes(cwd) && IsBytes(wrapper) ==> forall a | a in args :: IsBytes(a))
            && (!Tilde(cwd) && !Tilde(wrapper) ==> forall a | a in args[1..] :: !Tilde(a))
  {
    assert SafeCommandName("new-session");
    var args := SessionArgs(suffix, cwd, wrapper);
    assert args[3] == SessionName(suffix) && args[5] == cwd && args[6] == wrapper;
    assert args[1..] == ["-d", "-s", SessionName(suffix), "-c", cwd, wrapper];
    assert NUL in SessionName(suffix) <==> NUL in suffix;
  }

  /** A workload's directory is absolute and its wrapper begins with the gate, so neither begins with a tilde. */
  lemma WorkloadHasNoTilde(spec: Spec, gate: string)
    requires ValidSpec(spec)
    ensures !Tilde(spec.cwd) && !Tilde(WorkloadWrapper(spec, gate).value)
  {
    hide ShellQuote, ShellTail;
    var wrapper := WorkloadWrapper(spec, gate).value;
    assert wrapper[0] == 'I';
  }

  lemma SessionLine(suffix: string, cwd: string, wrapper: string, homes: Homes)
    requires IsBytes(suffix) && IsBytes(cwd) && IsBytes(wrapper)
    requires NulFree(suffix) && NulFree(cwd) && NulFree(wrapper) && !Tilde(cwd) && !Tilde(wrapper)
    ensures var args := SessionArgs(suffix, cwd, wrapper);
            var line := args[0] + QuotedTail(args[1..]);
            line != "" && OneLine(line) && TmuxTokens(line, None, homes) == Some(args)
  {
    hide IsBytes, NulFree, QuotedTail, TmuxTokens, OneLine, SafeCommandName, Tilde;
    SessionArgsAreSafe(suffix, cwd, wrapper);
    var args := SessionArgs(suffix, cwd, wrapper);
    hide SessionArgs;
    forall a | a in args[1..]
      ensures NUL !in a
    {
      var i :| 1 <= i < |args| && args[i] == a;
    }
    CommandLineIsOneLine(args);
    TmuxReadsBack(args, homes);
  }

  /** Both layers together: the workload survives the trip through tmux and the shell, whatever the home
      directories are. The line is built exactly when nothing in it contains a NUL. */
  method StartSession(spec: Spec, gate: string, suffix: string, ghost homes: Homes) returns (line: Option<string>)
    requires IsBytes(suffix) && IsBytes(spec.cwd) && IsBytes(gate)
    requires ValidSpec(spec) ==> forall v | v in Values(spec) :: IsBytes(v)
    ensures line.Some? <==>
              && ValidSpec(spec) && NulFree(suffix) && NulFree(spec.cwd) && NulFree(gate)
              && forall v | v in Values(spec) :: NulFree(v)
    ensures line.Some? ==>
              && line.value != "" && OneLine(line.value)
              && var args := TmuxTokens(line.value, None, homes);
                 && args.Some? && |args.value| == 7
                 && args.value[..6] == ["new-session", "-d", "-s", "sb_" + suffix, "-c", spec.cwd]
                 && ShellTokens(args.value[6], Plain, None) == Some(WrapperTokens(spec, gate))
  {
    hide ShellTokens, WrapperTokens, QuotedTail, TmuxTokens, Values, IsBytes, NulFree, OneLine, SafeCommandName, Tilde;
    var wrapper := WorkloadWrapper(spec, gate);
    if wrapper.None? {
      return None;
    }
    WrapperBytes(spec, gate);
    WorkloadHasNoTilde(spec, gate);
    hide WorkloadWrapper, ValidSpec;
    SessionArgsAreSafe(suffix, spec.cwd, wrapper.value);
    hide SessionArgs;
    line := TmuxCommandLine(SessionArgs(suffix, spec.cwd, wrapper.value));
    if line.Some? {
      SessionLine(suffix, spec.cwd, wrapper.value, homes);
      ShellReadsBackWorkload(spec, gate);
    }
  }
}
