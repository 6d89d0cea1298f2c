/** The terminal dashboard: a block of rows that is painted over in place.  The
    screen follows ECMA-48 for the four controls in use and does not wrap; the
    dashboard keeps its cursor arithmetic in step with it. */
module Redraw {
  import opened Wrappers

  // ----- the screen -----

  function Blanks(n: nat): (lines: seq<string>)
    ensures |lines| == n && forall i :: 0 <= i < n ==> lines[i] == ""
  {
    seq(n, _ => "")
  }

  function Padded(line: string, col: nat): (r: string)
    ensures |r| == col
  {
    if |line| >= col then line[..col] else line + seq(col - |line|, _ => ' ')
  }

  class Terminal {
    var lines: seq<string>
    var row: nat
    var col: nat

    ghost predicate Valid()
      reads this
    {
      row < |lines|
    }

    /** CR: back to the first column. */
    method Return()
      modifies this`col
      ensures col == 0
    {
      col := 0;
    }

    /** LF: down one row, scrolling up a fresh one at the bottom. */
    method Newline()
      requires Valid()
      modifies this`row, this`lines
      ensures Valid() && row == old(row) + 1
      ensures lines == old(lines) + if row == |old(lines)| then [""] else []
    {
      row := row + 1;
      if row == |lines| { lines := lines + [""]; }
    }

    /** EL: erase from the cursor to the end of the line. */
    method EraseToEnd()
      requires Valid()
      modifies this`lines
      ensures Valid()
      ensures lines == if col < |old(lines)[row]| then old(lines)[row := old(lines)[row][..col]] else old(lines)
    {
      if col < |lines[row]| { lines := lines[row := lines[row][..col]]; }
    }

    /** CUU: up by at least one row, stopping at the top. */
    method CursorUp(n: nat)
      requires n >= 1
      modifies this`row
      ensures row == if n <= old(row) then old(row) - n else 0
    {
      row := if n <= row then row - n else 0;
    }

    /** Printed text replaces what is under it. */
    method Print(text: string)
      requires Valid()
      modifies this`lines, this`col
      ensures Valid() && col == old(col) + |text|
      ensures lines == old(lines)[row := Padded(old(lines)[row], old(col)) + text
                                         + if |old(lines)[row]| > col then old(lines)[row][col..] else ""]
    {
      var line := lines[row];
      var after := col + |text|;
      lines := lines[row := Padded(line, col) + text + if |line| > after then line[after..] else ""];
      col := after;
    }
  }

  // ----- frames -----

  /** The lines of one frame: its rows, then its footer. */
  function Frame(rows: seq<string>, footer: Option<string>): seq<string> {
    rows + if footer.Some? then [footer.value] else []
  }

  /** Line `i` of a block that shows the frame. */
  function Cell(frame: seq<string>, i: nat): string { if i < |frame| then frame[i] else "" }

  /** The rows and footer of one call. */
  datatype Call = Call(rows: seq<string>, footer: Option<string>) {
    function Lines(): seq<string> { Frame(rows, footer) }
  }

  function Frames(calls: seq<Call>): (frames: seq<seq<string>>)
    ensures |frames| == |calls| && forall i :: 0 <= i < |calls| ==> frames[i] == calls[i].Lines()
    ensures forall i :: 0 <= i < |calls| && 0 < |calls[i].rows| ==> 0 < |frames[i]|
  {
    seq(|calls|, i requires 0 <= i < |calls| => calls[i].Lines())
  }

  function Max(a: nat, b: nat): nat { if a < b then b else a }

  /** A screen with a block of `height` lines from `top` on repainted: the frame,
      blanks below it, everything outside the block as it was. */
  function Painted(lines: seq<string>, top: nat, frame: seq<string>, height: nat): seq<string>
    requires top < |lines| && |frame| <= height
  {
    lines[..top] + frame + Blanks(height - |frame|) + if top + height < |lines| then lines[top + height..] else []
  }

  /** The block is painted, and finishing it may have scrolled up one fresh line. */
  ghost predicate PaintedOn(was: seq<string>, top: nat, frame: seq<string>, height: nat, finishLine: bool, now: seq<string>) {
    && top < |was| && |frame| <= height
    && var block := Painted(was, top, frame, height);
       now == block || (finishLine && now == block + [""])
  }

  /** Line by line: the rows, the footer below them, blank lines to the end of the
      old block, and around the block what was there. */
  ghost predicate Reads(was: seq<string>, now: seq<string>, top: nat, rows: seq<string>, footer: Option<string>, height: nat) {
    var n := |rows| + if footer.Some? then 1 else 0;
    && top < |was| && top + n <= |now| && top + height <= |now|
    && (forall i :: 0 <= i < |rows| ==> now[top + i] == rows[i])
    && (footer.Some? ==> now[top + |rows|] == footer.value)
    && (forall i :: top + n <= i < top + height ==> now[i] == "")
    && (forall i :: 0 <= i < top ==> now[i] == was[i])
    && (forall i :: top + n <= i && top + height <= i < |was| ==> i < |now| && now[i] == was[i])
  }

  lemma PaintedReads(was: seq<string>, top: nat, rows: seq<string>, footer: Option<string>, height: nat, finishLine: bool,
                     now: seq<string>)
    requires PaintedOn(was, top, Frame(rows, footer), Max(|Frame(rows, footer)|, height), finishLine, now)
    ensures Reads(was, now, top, rows, footer, height)
  {
  }

  // ----- the dashboard -----

  class TtyProgress {
    const out: Terminal
    var known: nat
    var active: bool
    var finished: bool
    var renderedRows: nat
    /** Where the block begins, and the frame it shows. */
    ghost var top: nat
    ghost var shown: seq<string>

    constructor (terminal: Terminal, stages: nat)
      requires terminal.Valid()
      ensures Valid() && !active && !finished && out == terminal && known == stages
    {
      out, known, active, finished, renderedRows := terminal, stages, false, false, 0;
      shown := [];
    }

    /** The cursor is on the last line of the frame, where the next call expects it. */
    ghost predicate Valid()
      reads this, out
    {
      && out.Valid()
      && (active ==>
            && 0 < renderedRows == |shown| && out.row == top + renderedRows - 1
            && out.lines[top..top + renderedRows] == shown)
      && (!active ==> renderedRows == 0)
    }

    /** Where the next frame is painted. */
    ghost function Origin(): nat
      reads this, out
    {
      if active then top else out.row
    }

    /** One line of the block, over whatever was there. */
    method PaintLine(text: string)
      requires out.Valid()
      modifies out
      ensures out.Valid() && out.row == old(out.row) && out.lines == old(out.lines)[out.row := text]
    {
      out.Return();
      out.EraseToEnd();
      assert out.lines[out.row] == "";
      out.Print(text);
      assert out.lines[out.row] == text;
    }

    /** The loop over the lines of the block, from the cursor down. */
    method PaintBlock(rows: seq<string>, footer: Option<string>, count: nat)
      requires out.Valid() && |Frame(rows, footer)| <= count
      modifies out
      ensures out.Valid() && out.row == old(out.row) + Max(count, 1) - 1
      ensures out.lines == Painted(old(out.lines), old(out.row), Frame(rows, footer), count)
    {
      ghost var was, start, frame := out.lines, out.row, Frame(rows, footer);
      for index := 0 to count
        invariant out.Valid() && out.row == start + if index < count then index else Max(count, 1) - 1
        invariant |out.lines| == Max(|was|, out.row + 1)
        invariant forall i :: 0 <= i < start ==> out.lines[i] == was[i]
        invariant forall i :: start <= i < start + index ==> out.lines[i] == Cell(frame, i - start)
        invariant forall i :: start + count <= i < |was| ==> out.lines[i] == was[i]
      {
        PaintLine(if index < |rows| then rows[index] else if index == |rows| then footer.GetOr("") else "");
        if index + 1 < count { out.Newline(); }
      }
    }

    /** From the last line of the old frame to its first, which any block over the
        old frame may be painted from. */
    method Rewind()
      requires Valid()
      modifies out
      ensures out.Valid() && out.row == old(Origin()) && |out.lines| == |old(out.lines)|
      ensures !active ==> out.lines == old(out.lines)
      ensures active ==> out.lines == old(out.lines)[top + renderedRows - 1 := ""]
    {
      if active {
        out.Return();
        out.EraseToEnd();
        assert out.lines[out.row] == "";
        if renderedRows > 1 { out.CursorUp(renderedRows - 1); }
      }
    }

    /** From the last line of the block to where the next output belongs. */
    method PlaceCursor(someRows: bool, finishLine: bool, cleared: nat)
      requires out.Valid() && (someRows ==> cleared <= out.row)
      modifies out
      ensures out.Valid()
      ensures out.lines == old(out.lines) || (finishLine && out.lines == old(out.lines) + [""])
      ensures !finishLine ==> out.lines == old(out.lines)
      ensures var above := if someRows then cleared else 0;
        out.row == if finishLine then old(out.row) - above + 1 else old(out.row) - above
    {
      if someRows && cleared > 0 { out.CursorUp(cleared); }
      if finishLine { out.Newline(); }
    }

    /** Rewinds and paints the frame over the old one, however tall either is. */
    method PaintFrame(rows: seq<string>, footer: Option<string>) returns (count: nat)
      requires Valid()
      modifies out
      ensures out.Valid() && count == Max(|Frame(rows, footer)|, renderedRows)
      ensures out.row == old(Origin()) + Max(count, 1) - 1
      ensures PaintedOn(old(out.lines), old(Origin()), Frame(rows, footer), count, false, out.lines)
    {
      ghost var was, start, frame := out.lines, Origin(), Frame(rows, footer);
      Rewind();
      count := Max(|rows| + if footer.Some? then 1 else 0, renderedRows);
      PaintedOver(was, out.lines, start, frame, count, if renderedRows > 0 then start + renderedRows - 1 else start);
      PaintBlock(rows, footer, count);
    }

    method PaintAndPlace(rows: seq<string>, finishLine: bool, footer: Option<string>)
      requires Valid()
      modifies this, out
      ensures known == old(known) && finished == old(finished) && active == !finishLine
      ensures renderedRows == if finishLine then 0 else |shown|
      ensures top == old(Origin()) && shown == Frame(rows, footer)
      ensures out.Valid()
      ensures PaintedOn(old(out.lines), top, shown, Max(|shown|, old(renderedRows)), finishLine, out.lines)
      ensures rows != [] ==> out.row == if finishLine then top + |shown| else top + |shown| - 1
      ensures rows == [] ==>
        out.row == top + Max(Max(|shown|, old(renderedRows)), 1) - if finishLine then 0 else 1
      ensures finishLine || rows != [] ==> Valid()
    {
      ghost var was := out.lines;
      ghost var start := Origin();
      var count := PaintFrame(rows, footer);
      top, shown := start, Frame(rows, footer);
      PaintedShows(was, top, shown, count);
      var rendered := |rows| + if footer.Some? then 1 else 0;
      PlaceCursor(rows != [], finishLine, count - rendered);
      active := !finishLine;
      renderedRows := if finishLine then 0 else rendered;
    }

    method RewriteRows(rows: seq<string>, finishLine: bool, footer: Option<string>)
      requires Valid()
      modifies this, out
      ensures known == old(known) && finished == old(finished) && active == !finishLine
      ensures renderedRows == if finishLine then 0 else |shown|
      ensures top == old(Origin()) && shown == Frame(rows, footer)
      ensures out.Valid()
      ensures PaintedOn(old(out.lines), top, shown, Max(|shown|, old(renderedRows)), finishLine, out.lines)
      ensures Reads(old(out.lines), out.lines, top, rows, footer, old(renderedRows))
      ensures rows != [] ==> out.row == if finishLine then top + |shown| else top + |shown| - 1
      ensures rows == [] ==>
        out.row == top + Max(Max(|shown|, old(renderedRows)), 1) - if finishLine then 0 else 1
      ensures finishLine || rows != [] ==> Valid()
    {
      PaintAndPlace(rows, finishLine, footer);
      PaintedReads(old(out.lines), top, rows, footer, old(renderedRows), finishLine, out.lines);
    }

    /** `start` and `progress_row` draw one live row per known stage; a stage seen
        for the first time adds one. */
    method Draw(newStage: bool, rows: seq<string>)
      requires Valid() && |rows| == known + if newStage then 1 else 0
      modifies this, out
      ensures Valid() && known == |rows| && finished == old(finished)
      ensures rows == [] ==> out.lines == old(out.lines) && active == old(active)
      ensures rows != [] ==>
        && active && top == old(Origin()) && shown == rows
        && PaintedOn(old(out.lines), top, rows, Max(|rows|, old(renderedRows)), false, out.lines)
    {
      if newStage { known := known + 1; }
      if rows == [] { return; }
      RewriteRows(rows, false, None);
      assert Frame(rows, None) == rows;
    }

    /** The final rows may be fewer than the live ones, or none; then the cursor ends
        below the whole old block. */
    method Finish(rows: seq<string>, footer: Option<string>)
      requires Valid()
      modifies this, out
      ensures Valid() && finished && !active
      ensures known == 0 ==> out.lines == old(out.lines) && out.row == old(out.row)
      ensures known > 0 ==>
        PaintedOn(old(out.lines), old(Origin()), Frame(rows, footer), Max(|Frame(rows, footer)|, old(renderedRows)), true,
                  out.lines)
      ensures known == old(known)
      ensures known > 0 && rows != [] ==> out.row == old(Origin()) + |Frame(rows, footer)|
      ensures known > 0 && rows == [] ==>
        out.row == old(Origin()) + Max(Max(|Frame(rows, footer)|, old(renderedRows)), 1)
    {
      if known > 0 { RewriteRows(rows, true, footer); }
      finished, active, renderedRows := true, false, 0;
    }

    /** An unfinished block is blanked; the cursor stays on its last line. */
    method ClearUnfinished()
      requires Valid()
      modifies this, out
      ensures Valid() && known == old(known) && finished == old(finished)
      ensures var clears := old(active) && !finished && known > 0;
        && active == (old(active) && !clears)
        && (!clears ==> out.lines == old(out.lines))
        && (clears ==> PaintedOn(old(out.lines), old(top), [], old(renderedRows), false, out.lines))
        && out.row == old(out.row)
    {
      if !active || finished || known == 0 { return; }
      ghost var was, start, height := out.lines, top, renderedRows;
      Rewind();
      PaintedOver(was, out.lines, start, [], height, start + height - 1);
      PaintBlock([], None, renderedRows);
      active, renderedRows := false, 0;
    }

    /** The first `i` frames have been painted, one over the other, from `start` on. */
    ghost predicate Playing(was: seq<string>, start: nat, frames: seq<seq<string>>, i: nat)
      requires i <= |frames| && start < |was| && forall j :: 0 <= j < |frames| ==> 0 < |frames[j]|
      reads this, out
    {
      && Valid() && out.lines == Played(was, start, frames[..i])
      && if i == 0 then !active && out.row == start else active && top == start && shown == frames[i - 1]
    }

    method PlayNext(call: Call, ghost was: seq<string>, ghost start: nat, ghost frames: seq<seq<string>>, ghost i: nat)
      requires i < |frames| && start < |was| && forall j :: 0 <= j < |frames| ==> 0 < |frames[j]|
      requires Playing(was, start, frames, i) && frames[i] == call.Lines() && 0 < |call.rows|
      modifies this, out
      ensures Playing(was, start, frames, i + 1) && known == old(known) && finished == old(finished)
    {
      ghost var before, height := out.lines, renderedRows;
      RewriteRows(call.rows, false, call.footer);
      PlayedNext(was, start, frames, i, height, before, out.lines);
    }

    /** One draw after another. */
    method Play(calls: seq<Call>)
      requires Valid() && !active && forall i :: 0 <= i < |calls| ==> 0 < |calls[i].rows|
      modifies this, out
      ensures known == old(known) && finished == old(finished)
      ensures Playing(old(out.lines), old(out.row), Frames(calls), |calls|)
    {
      ghost var frames, was, start := Frames(calls), out.lines, out.row;
      for i := 0 to |calls|
        invariant known == old(known) && finished == old(finished)
        invariant Playing(was, start, frames, i)
      {
        PlayNext(calls[i], was, start, frames, i);
      }
    }

    /** Draws of any number of rows, with or without a footer: the screen shows the
        latest frame, blanks below it as far as any draw reached, and everything
        above and beneath as it was. */
    method Draws(calls: seq<Call>)
      requires Valid() && !active && calls != [] && forall i :: 0 <= i < |calls| ==> 0 < |calls[i].rows|
      modifies this, out
      ensures Valid() && active && known == old(known) && finished == old(finished)
      ensures top == old(out.row) && shown == calls[|calls| - 1].Lines()
      ensures PaintedOn(old(out.lines), top, shown, Tallest(Frames(calls)), false, out.lines)
    {
      Play(calls);
      AllPlayed(old(out.lines), top, Frames(calls), out.lines);
      PlayedIsPainted(old(out.lines), top, Frames(calls), shown, out.lines);
    }

    /** A whole update, from the first draw to the finish: what is left is the final
        frame, blanks down to the tallest frame of them all, and nothing else
        changed. */
    method Update(calls: seq<Call>, last: Call)
      requires Valid() && !active && known > 0 && forall i :: 0 <= i < |calls| ==> 0 < |calls[i].rows|
      modifies this, out
      ensures Valid() && finished && !active
      ensures
        PaintedOn(old(out.lines), old(out.row), last.Lines(), Tallest(Frames(calls + [last])), true, out.lines)
      ensures last.rows != [] ==> out.row == old(out.row) + |last.Lines()|
    {
      ghost var frames := Frames(calls + [last]);
      assert frames[..|calls|] == Frames(calls) && frames[|calls|] == last.Lines();
      ghost var prior: seq<string> := [];
      if calls != [] {
        Draws(calls);
        prior := shown;
      } else {
        assert Painted(out.lines, out.row, [], 0) == out.lines;
      }
      ghost var start := Origin();
      Finish(last.rows, last.footer);
      if calls != [] { PaintedTwice(old(out.lines), start, prior, Tallest(Frames(calls)), last.Lines()); }
    }
  }

  /** The screen after the frames, each painted over the one before it. */
  function Played(lines: seq<string>, top: nat, frames: seq<seq<string>>): (now: seq<string>)
    requires top < |lines| && forall i :: 0 <= i < |frames| ==> 0 < |frames[i]|
    ensures top < |now|
    decreases |frames|
  {
    if frames == [] then lines
    else
      var n := |frames| - 1;
      var before := if n == 0 then 0 else |frames[n - 1]|;
      Painted(Played(lines, top, frames[..n]), top, frames[n], Max(|frames[n]|, before))
  }

  lemma PlayedNext(lines: seq<string>, top: nat, frames: seq<seq<string>>, i: nat, height: nat,
                   before: seq<string>, now: seq<string>)
    requires top < |lines| && i < |frames| && forall j :: 0 <= j < |frames| ==> 0 < |frames[j]|
    requires before == Played(lines, top, frames[..i]) && height == if i == 0 then 0 else |frames[i - 1]|
    requires PaintedOn(before, top, frames[i], Max(|frames[i]|, height), false, now)
    ensures now == Played(lines, top, frames[..i + 1])
  {
    var more := frames[..i + 1];
    assert more[..i] == frames[..i];
    assert more[i] == frames[i] && height == if i == 0 then 0 else |more[i - 1]|;
  }

  lemma AllPlayed(lines: seq<string>, top: nat, frames: seq<seq<string>>, now: seq<string>)
    requires top < |lines| && forall j :: 0 <= j < |frames| ==> 0 < |frames[j]|
    requires now == Played(lines, top, frames[..|frames|])
    ensures now == Played(lines, top, frames)
  {
    assert frames[..|frames|] == frames;
  }

  /** However the frames grow and shrink, the latest is what shows, with blanks as
      far down as the tallest reached. */
  lemma {:induction false} LatestFrameShows(lines: seq<string>, top: nat, frames: seq<seq<string>>)
    requires top < |lines| && frames != [] && forall i :: 0 <= i < |frames| ==> 0 < |frames[i]|
    ensures |frames[|frames| - 1]| <= Tallest(frames)
    ensures Played(lines, top, frames) == Painted(lines, top, frames[|frames| - 1], Tallest(frames))
    decreases |frames|
  {
    var n := |frames| - 1;
    var last, front := frames[n], frames[..n];
    if n == 0 {
      assert Tallest(front) == 0 && Played(lines, top, front) == lines;
    } else {
      var prior, height := frames[n - 1], Tallest(front);
      LatestFrameShows(lines, top, front);
      assert front[n - 1] == prior;
      PaintedTwice(lines, top, prior, height, last);
    }
  }

  lemma PlayedIsPainted(was: seq<string>, top: nat, frames: seq<seq<string>>, last: seq<string>, now: seq<string>)
    requires top < |was| && frames != [] && forall i :: 0 <= i < |frames| ==> 0 < |frames[i]|
    requires now == Played(was, top, frames) && last == frames[|frames| - 1]
    ensures PaintedOn(was, top, last, Tallest(frames), false, now)
  {
    LatestFrameShows(was, top, frames);
  }

  function Tallest(frames: seq<seq<string>>): nat {
    if frames == [] then 0 else Max(Tallest(frames[..|frames| - 1]), |frames[|frames| - 1]|)
  }

  /** Painting over a painted block that is at least as tall as its frame. */
  lemma PaintedTwice(was: seq<string>, top: nat, first: seq<string>, height: nat, second: seq<string>)
    requires top < |was| && |first| <= height
    ensures top < |Painted(was, top, first, height)| || height == 0
    ensures 0 < height ==>
      Painted(Painted(was, top, first, height), top, second, Max(|second|, |first|))
        == Painted(was, top, second, Max(height, |second|))
  {
  }

  /** What was inside the block does not matter. */
  lemma PaintedOver(was: seq<string>, now: seq<string>, top: nat, frame: seq<string>, height: nat, k: nat)
    requires top < |was| && |frame| <= height
    requires now == was || (top <= k < top + height && k < |was| && now == was[k := ""])
    ensures Painted(now, top, frame, height) == Painted(was, top, frame, height)
  {
    assert now[..top] == was[..top];
    if top + height < |was| { assert now[top + height..] == was[top + height..]; }
  }

  lemma PaintedShows(was: seq<string>, top: nat, frame: seq<string>, height: nat)
    requires top < |was| && |frame| <= height
    ensures var p := Painted(was, top, frame, height);
      && top + |frame| <= |p| && p[..top] == was[..top] && p[top..top + |frame|] == frame
  {
  }
}
