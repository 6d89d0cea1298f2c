/** The shell launcher that hooks generate, and the quoting rules of the POSIX.1
    Shell Command Language (section 2.2) by which a shell reads it back. */
module Wrapper {
  import opened Wrappers

  // ----- the printer -----

  /** Every single quote closes the quotes, adds an escaped quote and reopens. */
  function Escape(value: string): string {
    if value == [] then []
    else (if value[0] == '\'' then "'\\''" else [value[0]]) + Escape(value[1..])
  }

  function ShQuote(value: string): string { "'" + Escape(value) + "'" }

  function Quoted(values: seq<string>): string {
    if values == [] then [] else " " + ShQuote(values[0]) + Quoted(values[1..])
  }

  datatype Spec = Spec(name: string, interpreter: string, interpArgs: seq<string>, payload: string, env: seq<string>)

  function ExecLine(spec: Spec): string {
    "exec " + ShQuote(spec.interpreter) + Quoted(spec.interpArgs) + " " + ShQuote(spec.payload) + " \"$@\"\n"
  }

  function Exports(env: seq<string>): string {
    if env == [] then [] else "export " + env[0] + "\n" + Exports(env[1..])
  }

  const SHEBANG := "#!/usr/bin/env bash\n"

  lemma {:induction false} QuotedAppend(values: seq<string>, last: string)
    ensures Quoted(values + [last]) == Quoted(values) + " " + ShQuote(last)
  {
    if values == [] {
      assert ([] + [last])[1..] == [];
      assert Quoted([last]) == " " + ShQuote(last) + Quoted([last][1..]);
    } else {
      assert (values + [last])[1..] == values[1..] + [last];
      QuotedAppend(values[1..], last);
    }
  }

  lemma {:induction false} ExportsAppend(env: seq<string>, last: string)
    ensures Exports(env + [last]) == Exports(env) + "export " + last + "\n"
  {
    if env == [] {
      assert ([] + [last])[1..] == [];
      assert Exports([last]) == "export " + last + "\n" + Exports([last][1..]);
    } else {
      assert (env + [last])[1..] == env[1..] + [last];
      ExportsAppend(env[1..], last);
    }
  }

  method PushExports(script: string, env: seq<string>) returns (text: string)
    ensures text == script + Exports(env)
  {
    text := script;
    for i := 0 to |env|
      invariant text == script + Exports(env[..i])
    {
      text := text + ("export " + env[i] + "\n");
      assert env[..i + 1] == env[..i] + [env[i]];
      ExportsAppend(env[..i], env[i]);
    }
    assert env[..|env|] == env;
  }

  method PushArguments(script: string, values: seq<string>) returns (text: string)
    ensures text == script + Quoted(values)
  {
    text := script;
    for i := 0 to |values|
      invariant text == script + Quoted(values[..i])
    {
      text := text + (" " + ShQuote(values[i]));
      assert values[..i + 1] == values[..i] + [values[i]];
      QuotedAppend(values[..i], values[i]);
    }
    assert values[..|values|] == values;
  }

  /** `write_wrapper`: the script, or nothing for an unsafe name. */
  method WriteWrapper(spec: Spec, safeName: bool) returns (script: Option<string>)
    ensures script == if safeName then Some(SHEBANG + Exports(spec.env) + ExecLine(spec)) else None
  {
    if !safeName { return None; }
    var text := PushExports(SHEBANG, spec.env);
    var line := "exec ";
    line := line + ShQuote(spec.interpreter);
    line := PushArguments(line, spec.interpArgs);
    line := line + " ";
    line := line + ShQuote(spec.payload);
    line := line + " \"$@\"\n";
    return Some(text + line);
  }

  // ----- the shell's reading of one command line -----

  /** One unit of a word: a literal character, or all positional parameters. */
  datatype Unit = Char(c: char) | AllArguments

  type Word = seq<Unit>

  function Literal(s: string): (w: Word)
    ensures |w| == |s| && forall i :: 0 <= i < |s| ==> w[i] == Char(s[i])
  {
    seq(|s|, i requires 0 <= i < |s| => Char(s[i]))
  }

  datatype Mode = Bare | Single | Double

  /** The words of a command and the text after its newline. */
  datatype Command = Command(words: seq<Word>, rest: string)

  /** Characters that mean themselves outside quotes wherever they stand. */
  predicate Ordinary(c: char) { 'a' <= c <= 'z' || 'A' <= c <= 'Z' || '0' <= c <= '9' || c in "_-./" }

  function Add(word: Option<Word>, u: Unit): Option<Word> { Some(word.GetOr([]) + [u]) }

  function Flush(word: Option<Word>, words: seq<Word>): seq<Word> {
    if word.Some? then words + [word.value] else words
  }

  /** Reads words up to the end of the line.  `None` is an unfinished line, or text
      that is neither quoted nor ordinary and so may mean something else. */
  function Lex(s: string, mode: Mode, word: Option<Word>, words: seq<Word>): Option<Command>
    decreases |s|
  {
    if s == [] then None else
    var c := s[0];
    match mode
    case Single =>
      if c == '\'' then Lex(s[1..], Bare, word, words) else Lex(s[1..], Single, Add(word, Char(c)), words)
    case Double =>
      if c == '"' then Lex(s[1..], Bare, word, words)
      else if c == '\\' then
        if |s| < 2 then None
        else if s[1] == '\n' then Lex(s[2..], Double, word, words)
        else if s[1] in "$`\"\\" then Lex(s[2..], Double, Add(word, Char(s[1])), words)
        else Lex(s[1..], Double, Add(word, Char(c)), words)
      else if c == '$' then
        if |s| >= 2 && s[1] == '@' then Lex(s[2..], Double, Add(word, AllArguments), words) else None
      else if c == '`' then None
      else Lex(s[1..], Double, Add(word, Char(c)), words)
    case Bare =>
      if c == '\n' then Some(Command(Flush(word, words), s[1..]))
      else if c == ' ' || c == '\t' then Lex(s[1..], Bare, None, Flush(word, words))
      else if c == '\'' then Lex(s[1..], Single, Some(word.GetOr([])), words)
      else if c == '"' then Lex(s[1..], Double, Some(word.GetOr([])), words)
      else if c == '\\' then
        if |s| < 2 then None
        else if s[1] == '\n' then Lex(s[2..], Bare, word, words)
        else Lex(s[2..], Bare, Add(word, Char(s[1])), words)
      else if Ordinary(c) then Lex(s[1..], Bare, Add(word, Char(c)), words)
      else None
  }

  // ----- the round trip -----

  /** One escaped quote inside single quotes. */
  lemma LexEscapedQuote(t: string, w: Word, words: seq<Word>)
    ensures Lex("'\\''" + t, Single, Some(w), words) == Lex(t, Single, Some(w + [Char('\'')]), words)
  {
    var s := "'\\''" + t;
    assert s[1..] == "\\''" + t && s[1..][2..] == "'" + t && s[1..][2..][1..] == t;
    assert Lex(s, Single, Some(w), words) == Lex(s[1..], Bare, Some(w), words);
    assert Lex(s[1..], Bare, Some(w), words) == Lex("'" + t, Bare, Some(w + [Char('\'')]), words);
  }

  lemma LexPlain(c: char, t: string, w: Word, words: seq<Word>)
    requires c != '\''
    ensures Lex([c] + t, Single, Some(w), words) == Lex(t, Single, Some(w + [Char(c)]), words)
  {
    assert ([c] + t)[1..] == t;
  }

  lemma LiteralAfter(w: Word, v: string)
    requires v != []
    ensures w + [Char(v[0])] + Literal(v[1..]) == w + Literal(v)
  {
  }

  lemma EscapeOfMore(v: string, t: string)
    requires v != []
    ensures Escape(v) + "'" + t == (if v[0] == '\'' then "'\\''" else [v[0]]) + (Escape(v[1..]) + "'" + t)
  {
  }

  lemma LexEnd(t: string, w: Word, words: seq<Word>)
    ensures Lex(Escape([]) + "'" + t, Single, Some(w), words) == Lex(t, Bare, Some(w + Literal([])), words)
  {
    assert Escape([]) + "'" + t == "'" + t && ("'" + t)[1..] == t;
    assert w + Literal([]) == w;
  }

  lemma {:induction false} LexEscaped(v: string, t: string, w: Word, words: seq<Word>)
    ensures Lex(Escape(v) + "'" + t, Single, Some(w), words) == Lex(t, Bare, Some(w + Literal(v)), words)
    decreases |v|
  {
    if v == [] {
      LexEnd(t, w, words);
    } else {
      var more := Escape(v[1..]) + "'" + t;
      LexEscaped(v[1..], t, w + [Char(v[0])], words);
      LiteralAfter(w, v);
      EscapeOfMore(v, t);
      if v[0] == '\'' { LexEscapedQuote(more, w, words); } else { LexPlain(v[0], more, w, words); }
    }
  }

  /** After a blank, a quoted value is one word of its own, whatever it contains. */
  lemma LexQuoted(v: string, t: string, word: Option<Word>, words: seq<Word>)
    ensures Lex(" " + ShQuote(v) + t, Bare, word, words) == Lex(t, Bare, Some(Literal(v)), Flush(word, words))
  {
    var s, inner := " " + ShQuote(v) + t, Escape(v) + "'" + t;
    assert s == " '" + inner && s[1..] == "'" + inner && s[1..][1..] == inner;
    assert Lex(s, Bare, word, words) == Lex(s[1..], Bare, None, Flush(word, words));
    assert Lex(s[1..], Bare, None, Flush(word, words)) == Lex(inner, Single, Some([]), Flush(word, words));
    LexEscaped(v, t, [], Flush(word, words));
    assert [] + Literal(v) == Literal(v);
  }

  function Literals(values: seq<string>): (words: seq<Word>)
    ensures |words| == |values| && forall i :: 0 <= i < |values| ==> words[i] == Literal(values[i])
  {
    seq(|values|, i requires 0 <= i < |values| => Literal(values[i]))
  }

  lemma QuotedFirst(values: seq<string>, t: string)
    requires values != []
    ensures Quoted(values) + t == " " + ShQuote(values[0]) + (Quoted(values[1..]) + t)
  {
  }

  lemma LiteralsAfter(front: seq<Word>, values: seq<string>)
    requires |values| > 1
    ensures var n, rest := |values| - 1, values[1..];
      front + [Literal(values[0])] + Literals(rest)[..n - 1] == front + Literals(values)[..n]
  {
    var n, rest := |values| - 1, values[1..];
    assert Literals(values)[..n] == [Literal(values[0])] + Literals(rest)[..n - 1];
  }

  /** Quoted values after a blank are words of their own, the last still open. */
  lemma {:induction false} LexAll(values: seq<string>, t: string, word: Option<Word>, words: seq<Word>)
    requires values != []
    ensures var n := |values| - 1;
      Lex(Quoted(values) + t, Bare, word, words)
        == Lex(t, Bare, Some(Literal(values[n])), Flush(word, words) + Literals(values)[..n])
    decreases |values|
  {
    var v, rest, front := values[0], values[1..], Flush(word, words);
    QuotedFirst(values, t);
    LexQuoted(v, Quoted(rest) + t, word, words);
    if rest == [] {
      assert Quoted(rest) + t == t && front + Literals(values)[..0] == front;
    } else {
      LexAll(rest, t, Some(Literal(v)), front);
      LiteralsAfter(front, values);
    }
  }

  /** The ending hands the wrapper's own arguments on, as one unexpanded word. */
  lemma LexEnding(w: Word, words: seq<Word>)
    ensures Lex(" \"$@\"\n", Bare, Some(w), words) == Some(Command(words + [w] + [[AllArguments]], ""))
  {
    var s, none: Word := " \"$@\"\n", [];
    assert none + [AllArguments] == [AllArguments];
    assert s[1..] == "\"$@\"\n" && s[1..][1..] == "$@\"\n";
    assert "$@\"\n"[2..] == "\"\n" && "\"\n"[1..] == "\n" && "\n"[1..] == "";
    assert Lex("\"\n", Double, Some([AllArguments]), words + [w]) == Lex("\n", Bare, Some([AllArguments]), words + [w]);
    assert Lex("$@\"\n", Double, Some(none), words + [w]) == Lex("\"\n", Double, Some([AllArguments]), words + [w]);
    assert Lex(s[1..], Bare, None, words + [w]) == Lex("$@\"\n", Double, Some(none), words + [w]);
  }

  lemma LexExec(t: string)
    ensures Lex("exec" + t, Bare, None, []) == Lex(t, Bare, Some(Literal("exec")), [])
  {
    assert ("exec" + t)[1..] == "xec" + t && ("xec" + t)[1..] == "ec" + t;
    assert ("ec" + t)[1..] == "c" + t && ("c" + t)[1..] == t;
    var none: Word := [];
    assert none + [Char('e')] == Literal("e") && Literal("e") + [Char('x')] == Literal("ex");
    assert Literal("ex") + [Char('e')] == Literal("exe") && Literal("exe") + [Char('c')] == Literal("exec");
    assert Lex("c" + t, Bare, Some(Literal("exe")), []) == Lex(t, Bare, Some(Literal("exec")), []);
    assert Lex("ec" + t, Bare, Some(Literal("ex")), []) == Lex("c" + t, Bare, Some(Literal("exe")), []);
    assert Lex("xec" + t, Bare, Some(Literal("e")), []) == Lex("ec" + t, Bare, Some(Literal("ex")), []);
  }

  function Arguments(spec: Spec): seq<string> { [spec.interpreter] + spec.interpArgs + [spec.payload] }

  lemma ExecLineIsQuoted(spec: Spec)
    ensures ExecLine(spec) == "exec" + (Quoted(Arguments(spec)) + " \"$@\"\n")
  {
    var values, first := [spec.interpreter] + spec.interpArgs, ShQuote(spec.interpreter);
    QuotedAppend(values, spec.payload);
    assert values[1..] == spec.interpArgs && Quoted(values) == " " + first + Quoted(spec.interpArgs);
    assert "exec " == "exec" + " ";
  }

  /** A shell reads the exec line as exactly `exec`, the interpreter, its arguments
      and the payload, character for character, then its own arguments. */
  lemma WrapperRoundTrip(spec: Spec)
    ensures Lex(ExecLine(spec), Bare, None, [])
      == Some(Command([Literal("exec")] + Literals(Arguments(spec)) + [[AllArguments]], ""))
  {
    var values, ending := Arguments(spec), " \"$@\"\n";
    var n := |values| - 1;
    ExecLineIsQuoted(spec);
    LexExec(Quoted(values) + ending);
    LexAll(values, ending, Some(Literal("exec")), []);
    var words := Flush(Some(Literal("exec")), []) + Literals(values)[..n];
    LexEnding(Literal(values[n]), words);
    assert words + [Literal(values[n])] == [Literal("exec")] + Literals(values);
  }

  lemma LiteralIsInjective(a: string, b: string)
    requires Literal(a) == Literal(b)
    ensures a == b
  {
    forall i | 0 <= i < |a| ensures a[i] == b[i] { assert Literal(a)[i] == Literal(b)[i]; }
  }

  lemma LiteralsAreInjective(x: seq<string>, y: seq<string>)
    requires Literals(x) == Literals(y)
    ensures x == y
  {
    forall i | 0 <= i < |x| ensures x[i] == y[i] {
      assert Literals(x)[i] == Literals(y)[i];
      LiteralIsInjective(x[i], y[i]);
    }
  }

  lemma Middle<T>(a: T, x: seq<T>, y: seq<T>, b: T)
    requires [a] + x + [b] == [a] + y + [b]
    ensures x == y
  {
    assert |[a] + x + [b]| == |[a] + y + [b]|;
    assert ([a] + x + [b])[1..|x| + 1] == x && ([a] + y + [b])[1..|y| + 1] == y;
  }

  /** So no two launches are printed alike. */
  lemma ExecLineIsInjective(a: Spec, b: Spec)
    requires ExecLine(a) == ExecLine(b)
    ensures a.interpreter == b.interpreter && a.interpArgs == b.interpArgs && a.payload == b.payload
  {
    WrapperRoundTrip(a);
    WrapperRoundTrip(b);
    var x, y := Arguments(a), Arguments(b);
    Middle(Literal("exec"), Literals(x), Literals(y), [AllArguments]);
    LiteralsAreInjective(x, y);
    assert x[0] == y[0] && x[1..|x| - 1] == y[1..|x| - 1] && x[|x| - 1] == y[|x| - 1];
    assert x[1..|x| - 1] == a.interpArgs && y[1..|y| - 1] == b.interpArgs;
  }

  // ----- the whole script -----

  /** The first line, and what follows its newline. */
  function FirstLine(s: string): string { if s == [] || s[0] == '\n' then [] else [s[0]] + FirstLine(s[1..]) }

  function AfterLine(s: string): string { if s == [] then [] else if s[0] == '\n' then s[1..] else AfterLine(s[1..]) }

  /** The text after `n` lines. */
  function AfterLines(s: string, n: nat): string
    decreases n
  {
    if n == 0 then s else AfterLines(AfterLine(s), n - 1)
  }

  lemma {:induction false} LineEnds(line: string, rest: string)
    requires '\n' !in line
    ensures FirstLine(line + "\n" + rest) == line && AfterLine(line + "\n" + rest) == rest
  {
    var s := line + "\n" + rest;
    if line == [] {
      assert s[0] == '\n' && s[1..] == rest;
    } else {
      assert s[1..] == line[1..] + "\n" + rest;
      LineEnds(line[1..], rest);
    }
  }

  lemma ExportLine(env: seq<string>, rest: string)
    requires env != [] && '\n' !in env[0]
    ensures FirstLine(Exports(env) + rest) == "export " + env[0]
    ensures AfterLine(Exports(env) + rest) == Exports(env[1..]) + rest
  {
    var line := "export " + env[0];
    assert Exports(env) + rest == line + "\n" + (Exports(env[1..]) + rest);
    LineEnds(line, Exports(env[1..]) + rest);
  }

  lemma {:induction false} ExportLines(env: seq<string>, rest: string, i: nat)
    requires i <= |env| && forall j :: 0 <= j < |env| ==> '\n' !in env[j]
    ensures AfterLines(Exports(env) + rest, i) == Exports(env[i..]) + rest
    ensures i < |env| ==> FirstLine(AfterLines(Exports(env) + rest, i)) == "export " + env[i]
  {
    if i == 0 {
      assert env[0..] == env;
      if env != [] { ExportLine(env, rest); }
    } else {
      ExportLine(env, rest);
      ExportLines(env[1..], rest, i - 1);
      assert env[1..][i - 1..] == env[i..];
    }
  }

  lemma ShebangLine(rest: string)
    ensures FirstLine(SHEBANG + rest) == "#!/usr/bin/env bash" && AfterLine(SHEBANG + rest) == rest
  {
    var line := "#!/usr/bin/env bash";
    assert SHEBANG + rest == line + "\n" + rest;
    LineEnds(line, rest);
  }

  lemma ScriptExports(spec: Spec, i: nat)
    requires i < |spec.env| && forall j :: 0 <= j < |spec.env| ==> '\n' !in spec.env[j]
    ensures FirstLine(AfterLines(SHEBANG + Exports(spec.env) + ExecLine(spec), 1 + i)) == "export " + spec.env[i]
  {
    var rest := Exports(spec.env) + ExecLine(spec);
    assert SHEBANG + Exports(spec.env) + ExecLine(spec) == SHEBANG + rest;
    ShebangLine(rest);
    ExportLines(spec.env, ExecLine(spec), i);
  }

  lemma ScriptEnds(spec: Spec)
    requires forall j :: 0 <= j < |spec.env| ==> '\n' !in spec.env[j]
    ensures var script := SHEBANG + Exports(spec.env) + ExecLine(spec);
      FirstLine(script) == "#!/usr/bin/env bash" && AfterLines(script, 1 + |spec.env|) == ExecLine(spec)
  {
    var n, rest := |spec.env|, Exports(spec.env) + ExecLine(spec);
    assert SHEBANG + Exports(spec.env) + ExecLine(spec) == SHEBANG + rest;
    ShebangLine(rest);
    ExportLines(spec.env, ExecLine(spec), n);
    assert Exports(spec.env[n..]) + ExecLine(spec) == ExecLine(spec);
  }

  /** A script whose environment lines are lines: the interpreter line, one `export`
      for each of them in order, and one command, which the shell reads as `exec`,
      the interpreter, its arguments and the payload, then the wrapper's own
      arguments; after it nothing. */
  lemma ScriptRuns(spec: Spec)
    requires forall j :: 0 <= j < |spec.env| ==> '\n' !in spec.env[j]
    ensures var script := SHEBANG + Exports(spec.env) + ExecLine(spec);
      && FirstLine(script) == "#!/usr/bin/env bash"
      && (forall i :: 0 <= i < |spec.env| ==> FirstLine(AfterLines(script, 1 + i)) == "export " + spec.env[i])
      && Lex(AfterLines(script, 1 + |spec.env|), Bare, None, [])
           == Some(Command([Literal("exec")] + Literals(Arguments(spec)) + [[AllArguments]], ""))
  {
    ScriptEnds(spec);
    WrapperRoundTrip(spec);
    forall i | 0 <= i < |spec.env|
      ensures FirstLine(AfterLines(SHEBANG + Exports(spec.env) + ExecLine(spec), 1 + i)) == "export " + spec.env[i]
    {
      ScriptExports(spec, i);
    }
  }
}
