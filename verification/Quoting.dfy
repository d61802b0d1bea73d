/** Arguments are quoted for the shell so that it reads back exactly the argument. */
module Quoting {
  import opened Options

  function Quoted(value: string): string {
    "'" + Escaped(value) + "'"
  }

  function Escaped(value: string): string {
    if value == "" then ""
    else Escaped(value[..|value| - 1]) + if value[|value| - 1] == '\'' then "'\\''" else [value[|value| - 1]]
  }

  method QuoteShell(value: string) returns (out: string)
    ensures out == Quoted(value)
  {
    out := "'";
    for i := 0 to |value|
      invariant out == "'" + Escaped(value[..i])
    {
      assert value[..i + 1][..i] == value[..i];
      if value[i] == '\'' {
        out := out + "'\\''";
      } else {
        out := out + [value[i]];
      }
    }
    assert value[..|value|] == value;
    out := out + "'";
  }

  // ---------------------------------------------------------------------------------------------
  // What the shell reads
  // ---------------------------------------------------------------------------------------------

  predicate Blank(c: char) { c == ' ' || c == '\t' }

  /** Characters that mean something to the shell outside quotes (section 2.2 of the POSIX.1-2017 Shell
      Command Language). */
  predicate Special(c: char) { c in "|&;<>()$`\"*?[#~=%!{}\n" }

  /** Splits a command line into words by the rules for backslashes (section 2.2.1) and single quotes
      (section 2.2.2) and for blanks between words (section 2.3). `word` is the word being read, if one
      has begun. Nothing is said about lines with other special characters. */
  function Words(s: string, word: Option<string>, quoted: bool): Option<seq<string>>
    decreases |s|
  {
    if s == "" then (if quoted then None else Some(if word.Some? then [word.value] else []))
    else
      var c, rest := s[0], s[1..];
      var begun := if word.Some? then word.value else "";
      if quoted then Words(rest, Some(if c == '\'' then begun else begun + [c]), c != '\'')
      else if c == '\'' then Words(rest, Some(begun), true)
      else if c == '\\' then
        if rest == "" then None
        else if rest[0] == '\n' then Words(rest[1..], word, false)
        else Words(rest[1..], Some(begun + [rest[0]]), false)
      else if Blank(c) then
        var more := Words(rest, None, false);
        if more.Some? then Some((if word.Some? then [word.value] else []) + more.value) else None
      else if Special(c) then None
      else Words(rest, Some(begun + [c]), false)
  }

  function ReadWords(s: string): Option<seq<string>> { Words(s, None, false) }

  function EscapedFirst(value: string): string {
    if value == "" then "" else (if value[0] == '\'' then "'\\''" else [value[0]]) + EscapedFirst(value[1..])
  }

  lemma {:induction false} EscapedAppend(a: string, b: string)
    ensures Escaped(a + b) == Escaped(a) + Escaped(b)
    decreases |b|
  {
    if b == "" {
      assert a + b == a;
    } else {
      assert (a + b)[..|a + b| - 1] == a + b[..|b| - 1];
      EscapedAppend(a, b[..|b| - 1]);
    }
  }

  lemma {:induction false} EscapedFromFront(value: string)
    ensures Escaped(value) == EscapedFirst(value)
    decreases |value|
  {
    if value != "" {
      assert value == value[..1] + value[1..];
      EscapedAppend(value[..1], value[1..]);
      EscapedFromFront(value[1..]);
      assert Escaped(value[..1]) == if value[0] == '\'' then "'\\''" else [value[0]] by {
        assert value[..1][..0] == "";
      }
    }
  }

  /** Closing quote, escaped quote, opening quote: one quote character, and quoting goes on. */
  lemma EscapedQuote(rest: string, begun: string)
    ensures Words("'\\''" + rest, Some(begun), true) == Words(rest, Some(begun + "'"), true)
  {
    var closed, reopened := "\\''" + rest, "'" + rest;
    assert ("'\\''" + rest)[1..] == closed && closed[1..] == "'" + reopened && closed[1..][1..] == reopened &&
      reopened[1..] == rest;
    assert Words("'\\''" + rest, Some(begun), true) == Words(closed, Some(begun), false);
    assert Words(closed, Some(begun), false) == Words(reopened, Some(begun + "'"), false);
  }

  /** The shell reads the escaped text as it was, and is still between quotes after it. */
  lemma {:induction false} ReadEscaped(value: string, rest: string, begun: string)
    ensures Words(EscapedFirst(value) + rest, Some(begun), true) == Words(rest, Some(begun + value), true)
    decreases |value|
  {
    if value == "" {
      assert EscapedFirst(value) + rest == rest && begun + value == begun;
    } else {
      var tail := EscapedFirst(value[1..]) + rest;
      assert begun + [value[0]] + value[1..] == begun + value;
      if value[0] == '\'' {
        assert EscapedFirst(value) + rest == "'\\''" + tail;
        EscapedQuote(tail, begun);
      } else {
        var s := EscapedFirst(value) + rest;
        assert s[0] == value[0] && s[1..] == tail;
      }
      ReadEscaped(value[1..], rest, begun + [value[0]]);
    }
  }

  /** One quoted argument, then whatever follows. */
  lemma ReadQuoted(value: string, rest: string)
    ensures Words(Quoted(value) + rest, None, false) == Words(rest, Some(value), false)
  {
    EscapedFromFront(value);
    var s := Quoted(value) + rest;
    var inside := EscapedFirst(value) + ("'" + rest);
    assert s[0] == '\'' && s[1..] == inside;
    ReadEscaped(value, "'" + rest, "");
    assert "" + value == value && ("'" + rest)[1..] == rest;
  }

  /** The quoted form of any string is exactly one word, equal to the string. */
  lemma QuotedIsOneWord(value: string)
    ensures ReadWords(Quoted(value)) == Some([value])
  {
    ReadQuoted(value, "");
    assert Quoted(value) + "" == Quoted(value);
  }

  /** Arguments separated by blanks. */
  function CommandLine(args: seq<string>): string {
    if args == [] then "" else Quoted(args[0]) + if |args| == 1 then "" else " " + CommandLine(args[1..])
  }

  /** A command line of quoted arguments is read back as those arguments. */
  lemma {:induction false} CommandLineReadsBack(args: seq<string>)
    ensures ReadWords(CommandLine(args)) == Some(args)
    decreases |args|
  {
    if |args| == 1 {
      QuotedIsOneWord(args[0]);
      assert args == [args[0]] && CommandLine(args) == Quoted(args[0]) + "";
      assert Quoted(args[0]) + "" == Quoted(args[0]);
    } else if |args| > 1 {
      var rest := " " + CommandLine(args[1..]);
      assert rest[1..] == CommandLine(args[1..]);
      ReadQuoted(args[0], rest);
      CommandLineReadsBack(args[1..]);
      assert [args[0]] + args[1..] == args;
    }
  }
}
