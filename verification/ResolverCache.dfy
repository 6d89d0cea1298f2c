/** The resolver's cache file: a method marker on the first line and the command it
    was decided for on a later one. */
module ResolverCache {
  import opened Wrappers

  /** What the first line can say. */
  datatype Marker = ReleaseChosen | NoAsset | LastKnown | LegacyRepo | Unreadable

  /** A parsed cache file. */
  datatype Cached = Cached(marker: Marker, cmd: Option<string>)

  const RELEASE := "github:release"
  const NO_ASSET := "github:repo:no-compatible-release"
  const LAST_KNOWN := "github:repo:last-known"
  const REPO := "github:repo"
  const CMD := "cmd="

  // ----- lines and trimming -----

  function StripReturn(line: string): string {
    if line != [] && line[|line| - 1] == '\r' then line[..|line| - 1] else line
  }

  /** The position of the first newline, or the length. */
  function Newline(s: string): (i: nat)
    ensures i <= |s| && '\n' !in s[..i] && (i < |s| ==> s[i] == '\n')
  {
    if s == [] || s[0] == '\n' then 0
    else
      var i := 1 + Newline(s[1..]);
      assert s[..i] == [s[0]] + s[1..][..i - 1];
      i
  }

  /** `str::lines`: a line ends at a newline, with a carriage return before it. */
  function LinesOf(s: string): seq<string>
    decreases |s|
  {
    if s == [] then []
    else
      var i := Newline(s);
      if i == |s| then [s] else [StripReturn(s[..i])] + LinesOf(s[i + 1..])
  }

  predicate White(c: char) {
    var n := c as int;
    9 <= n <= 13 || n == 0x20 || n == 0x85 || n == 0xA0 || n == 0x1680 || 0x2000 <= n <= 0x200A
    || n == 0x2028 || n == 0x2029 || n == 0x202F || n == 0x205F || n == 0x3000
  }

  function TrimStart(s: string): string { if s != [] && White(s[0]) then TrimStart(s[1..]) else s }

  function TrimEnd(s: string): string { if s != [] && White(s[|s| - 1]) then TrimEnd(s[..|s| - 1]) else s }

  function Trim(s: string): string { TrimEnd(TrimStart(s)) }

  // ----- parsing and printing -----

  function MarkerOf(text: string): Marker {
    if text == RELEASE then ReleaseChosen
    else if text == NO_ASSET then NoAsset
    else if text == LAST_KNOWN then LastKnown
    else if text == REPO then LegacyRepo
    else Unreadable
  }

  /** The value of the first line that has the key. */
  function FirstCmd(lines: seq<string>): Option<string> {
    if lines == [] then None
    else if CMD <= lines[0] then Some(lines[0][|CMD|..])
    else FirstCmd(lines[1..])
  }

  function Parse(content: string): Cached {
    var lines := LinesOf(content);
    if lines == [] then Cached(Unreadable, None) else Cached(MarkerOf(Trim(lines[0])), FirstCmd(lines[1..]))
  }

  function TextOf(m: Marker): string
    requires !m.Unreadable?
  {
    match m
    case ReleaseChosen => RELEASE
    case NoAsset => NO_ASSET
    case LastKnown => LAST_KNOWN
    case LegacyRepo => REPO
  }

  function Print(m: Marker, cmd: string): string
    requires !m.Unreadable?
  {
    TextOf(m) + "\n" + (CMD + cmd + "\n")
  }

  /** A command the line format can carry. */
  predicate Recordable(cmd: string) { '\n' !in cmd && (cmd != [] ==> cmd[|cmd| - 1] != '\r') }

  lemma {:induction false} NewlineAfter(a: string, b: string)
    requires '\n' !in a
    ensures Newline(a + "\n" + b) == |a|
  {
    if a != [] {
      NewlineAfter(a[1..], b);
      assert (a + "\n" + b)[1..] == a[1..] + "\n" + b;
    }
  }

  lemma FirstLine(a: string, b: string)
    requires '\n' !in a
    ensures LinesOf(a + "\n" + b) == [StripReturn(a)] + LinesOf(b)
  {
    NewlineAfter(a, b);
    var s := a + "\n" + b;
    assert s[..|a|] == a && s[|a| + 1..] == b;
  }

  /** A marker line reads back as itself. */
  predicate Stable(text: string) {
    text != [] && '\n' !in text && text[|text| - 1] != '\r' && !White(text[0]) && !White(text[|text| - 1])
  }

  lemma MarkerReads(m: Marker)
    requires !m.Unreadable?
    ensures Stable(TextOf(m)) && MarkerOf(TextOf(m)) == m
  {
    assert |RELEASE| == 14 && |NO_ASSET| == 33 && |LAST_KNOWN| == 22 && |REPO| == 11;
  }

  lemma StripAfter(key: string, value: string)
    requires key != [] && key[|key| - 1] != '\r'
    ensures StripReturn(key + value) == key + StripReturn(value)
  {
    var line := key + value;
    if value != [] { assert line[|line| - 1] == value[|value| - 1]; } else { assert line == key; }
  }

  /** A line with the key, whatever follows it. */
  lemma KeyedLine(value: string, rest: string)
    requires '\n' !in value
    ensures FirstCmd(LinesOf(CMD + value + "\n" + rest)) == Some(StripReturn(value))
  {
    FirstLine(CMD + value, rest);
    StripAfter(CMD, value);
    assert (CMD + StripReturn(value))[|CMD|..] == StripReturn(value);
  }

  lemma CmdLineReads(cmd: string)
    requires '\n' !in cmd
    ensures FirstCmd(LinesOf(CMD + cmd + "\n")) == Some(StripReturn(cmd))
  {
    assert CMD + cmd + "\n" + "" == CMD + cmd + "\n";
    KeyedLine(cmd, "");
  }

  /** With a newline in the command only the text before it can be read back. */
  lemma BrokenCmdIsLost(cmd: string)
    requires '\n' in cmd
    ensures FirstCmd(LinesOf(CMD + cmd + "\n")) != Some(cmd)
  {
    var i := Newline(cmd);
    var front, rest := cmd[..i], cmd[i + 1..] + "\n";
    assert cmd == front + "\n" + cmd[i + 1..];
    assert CMD + front + "\n" + rest == CMD + cmd + "\n";
    KeyedLine(front, rest);
  }

  /** A written decision is read back with its marker always, and with its command
      exactly when the command is one the line format can carry. */
  lemma WrittenIsParsed(m: Marker, cmd: string)
    requires !m.Unreadable?
    ensures Parse(Print(m, cmd)).marker == m
    ensures Parse(Print(m, cmd)).cmd == Some(cmd) <==> Recordable(cmd)
  {
    MarkerReads(m);
    FirstLine(TextOf(m), CMD + cmd + "\n");
    if '\n' in cmd { BrokenCmdIsLost(cmd); } else { CmdLineReads(cmd); }
  }

  // ----- what a file that others wrote says -----

  /** Every line followed by a newline. */
  function Text(lines: seq<string>): string {
    if lines == [] then [] else lines[0] + "\n" + Text(lines[1..])
  }

  /** Lines without line ends of their own are read back as they were written. */
  lemma {:induction false} LinesReadBack(lines: seq<string>)
    requires forall i :: 0 <= i < |lines| ==> Recordable(lines[i])
    ensures LinesOf(Text(lines)) == lines
  {
    if lines != [] {
      FirstLine(lines[0], Text(lines[1..]));
      LinesReadBack(lines[1..]);
      assert lines == [lines[0]] + lines[1..];
    }
  }

  /** Lines that end in a newline, alone or after a carriage return. */
  function Ended(lines: seq<string>, crlf: seq<bool>): string
    requires |lines| == |crlf|
  {
    if lines == [] then [] else lines[0] + (if crlf[0] then "\r\n" else "\n") + Ended(lines[1..], crlf[1..])
  }

  lemma UnendedLine(last: string)
    requires '\n' !in last
    ensures LinesOf(last) == if last == [] then [] else [last]
  {
    assert forall k :: 0 <= k < |last| ==> last[k] != '\n';
  }

  lemma EndedLine(line: string, crlf: bool, rest: string)
    requires '\n' !in line && (crlf || Recordable(line))
    ensures LinesOf(line + (if crlf then "\r\n" else "\n") + rest) == [line] + LinesOf(rest)
  {
    var full := line + if crlf then "\r" else "";
    FirstLine(full, rest);
    assert line + (if crlf then "\r\n" else "\n") + rest == full + "\n" + rest;
    assert StripReturn(full) == line;
  }

  lemma EndedMore(lines: seq<string>, crlf: seq<bool>, last: string)
    requires |lines| == |crlf| && 0 < |lines|
    ensures Ended(lines, crlf) + last == lines[0] + (if crlf[0] then "\r\n" else "\n") + (Ended(lines[1..], crlf[1..]) + last)
  {
  }

  /** A text is read line by line, whichever way its lines end; what follows the last
      newline is a line as it stands, and none if it is empty. */
  lemma {:induction false} AnyLinesRead(lines: seq<string>, crlf: seq<bool>, last: string)
    requires |lines| == |crlf| && '\n' !in last
    requires forall i :: 0 <= i < |lines| ==> '\n' !in lines[i] && (crlf[i] || Recordable(lines[i]))
    ensures LinesOf(Ended(lines, crlf) + last) == lines + if last == [] then [] else [last]
  {
    if lines == [] {
      UnendedLine(last);
      assert Ended(lines, crlf) + last == last;
    } else {
      EndedMore(lines, crlf, last);
      EndedLine(lines[0], crlf[0], Ended(lines[1..], crlf[1..]) + last);
      AnyLinesRead(lines[1..], crlf[1..], last);
      assert lines == [lines[0]] + lines[1..];
    }
  }

  /** The command is what follows the key on the first line that has it. */
  lemma {:induction false} FirstCmdIsFirst(lines: seq<string>, k: nat)
    requires k < |lines| && "cmd=" <= lines[k] && forall j :: 0 <= j < k ==> !("cmd=" <= lines[j])
    ensures FirstCmd(lines) == Some(lines[k][4..])
  {
    if k > 0 {
      assert lines[1..][k - 1] == lines[k] && forall j :: 0 <= j < k - 1 ==> lines[1..][j] == lines[j + 1];
      FirstCmdIsFirst(lines[1..], k - 1);
    }
  }

  lemma {:induction false} NoCmdIsFound(lines: seq<string>)
    requires forall j :: 0 <= j < |lines| ==> !("cmd=" <= lines[j])
    ensures FirstCmd(lines) == None
  {
    if lines != [] {
      assert forall j :: 0 <= j < |lines| - 1 ==> lines[1..][j] == lines[j + 1];
      NoCmdIsFound(lines[1..]);
    }
  }

  /** The characters of the Unicode property White_Space. */
  const WHITE_SPACE := "\t\n\U{b}\U{c}\r \U{85}\U{a0}\U{1680}\U{2000}\U{2001}\U{2002}\U{2003}\U{2004}\U{2005}\U{2006}"
    + "\U{2007}\U{2008}\U{2009}\U{200a}\U{2028}\U{2029}\U{202f}\U{205f}\U{3000}"

  lemma WhiteIsListed(c: char)
    ensures White(c) <==> c in WHITE_SPACE
  {
  }

  predicate AllWhite(s: string) { forall i :: 0 <= i < |s| ==> White(s[i]) }

  predicate Trimmed(s: string) { s != [] ==> !White(s[0]) && !White(s[|s| - 1]) }

  lemma {:induction false} StartIsWhite(s: string) returns (a: string)
    ensures AllWhite(a) && s == a + TrimStart(s)
    ensures TrimStart(s) != [] ==> !White(TrimStart(s)[0])
  {
    a := [];
    if s != [] && White(s[0]) {
      a := StartIsWhite(s[1..]);
      assert s == [s[0]] + s[1..];
      a := [s[0]] + a;
    }
  }

  lemma {:induction false} EndIsWhite(s: string) returns (b: string)
    ensures AllWhite(b) && s == TrimEnd(s) + b
    ensures TrimEnd(s) != [] ==> !White(TrimEnd(s)[|TrimEnd(s)| - 1]) && TrimEnd(s)[0] == s[0]
    decreases |s|
  {
    b := [];
    if s != [] && White(s[|s| - 1]) {
      b := EndIsWhite(s[..|s| - 1]);
      assert s == s[..|s| - 1] + [s[|s| - 1]];
      b := b + [s[|s| - 1]];
    }
  }

  /** Trimming takes away white space at both ends and nothing else. */
  lemma TrimMeans(s: string) returns (a: string, b: string)
    ensures AllWhite(a) && AllWhite(b) && s == a + Trim(s) + b && Trimmed(Trim(s))
  {
    a := StartIsWhite(s);
    b := EndIsWhite(TrimStart(s));
  }

  /** A file in lines: the first says how, the first `cmd=` line after it for what. */
  lemma ParsedFile(first: string, lines: seq<string>, k: nat)
    requires Recordable(first) && forall i :: 0 <= i < |lines| ==> Recordable(lines[i])
    requires k < |lines| && "cmd=" <= lines[k] && forall j :: 0 <= j < k ==> !("cmd=" <= lines[j])
    ensures Parse(Text([first] + lines)) == Cached(MarkerOf(Trim(first)), Some(lines[k][4..]))
  {
    LinesReadBack([first] + lines);
    assert ([first] + lines)[1..] == lines;
    FirstCmdIsFirst(lines, k);
  }

  /** The four texts that mean something. */
  lemma MarkersAreText(text: string)
    ensures MarkerOf("github:release") == ReleaseChosen && MarkerOf("github:repo") == LegacyRepo
    ensures MarkerOf("github:repo:no-compatible-release") == NoAsset && MarkerOf("github:repo:last-known") == LastKnown
    ensures MarkerOf(text).Unreadable? <==>
      text !in ["github:release", "github:repo:no-compatible-release", "github:repo:last-known", "github:repo"]
  {
    assert |RELEASE| == 14 && |NO_ASSET| == 33 && |LAST_KNOWN| == 22 && |REPO| == 11;
  }
}
