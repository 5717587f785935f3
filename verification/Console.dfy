/** The console screen: a scroll region that shows the end of an unbounded transcript. */
module Console {

  const COLUMNS: nat := 80
  const ROWS: nat := 25
  const BLANK: nat := 0x720
  const NEWLINE: nat := 10
  const RETURN: nat := 13
  const UNSIGNED: nat := 0x1_0000_0000

  /** A character above 0xff brings its own attributes; others are white on black. */
  function Cell(c: nat): nat {
    if c > 0xFF then c % 0x1_0000 else c + 0x700
  }

  /** The low byte of a cell is the character; the high byte is its attributes, 7 by default. */
  lemma CellMeans(c: nat)
    ensures Cell(c) % 0x100 == c % 0x100
    ensures Cell(c) / 0x100 == if c > 0xFF then c / 0x100 % 0x100 else 7
    ensures Cell(' ' as nat) == BLANK
  {
    var q, m := c / 0x1_0000, c % 0x1_0000;
    var h, l := m / 0x100, m % 0x100;
    assert c == 0x100 * (0x100 * q + h) + l;
    assert c / 0x100 == 0x100 * q + h;
    assert (0x100 * q + h) % 0x100 == h;
  }

  function Bound(min: nat, value: nat, max: nat): (r: nat)
    requires min <= max
    ensures min <= r <= max && (min <= value <= max ==> r == value)
    ensures (value <= min ==> r == min) && (value >= max ==> r == max)
  {
    if value < min then min else if value > max then max else value
  }

  /** The place in a range that is nearest to a value: the value itself, or the end on its side. */
  predicate Nearest(place: int, min: int, value: int, max: int) {
    && min <= place <= max
    && (value <= min ==> place == min) && (value >= max ==> place == max) && (min <= value <= max ==> place == value)
  }

  // -------- The transcript --------

  /** Lines without end, written from a position. `pending` tells that the last line has only just been added. */
  datatype Paper = Paper(lines: seq<seq<nat>>, row: nat, col: nat, pending: bool)

  ghost predicate Sound(p: Paper, width: nat) {
    && (forall j :: 0 <= j < |p.lines| ==> |p.lines[j]| == width)
    && p.row < |p.lines| && p.col < width
    && (p.pending ==> p.row == |p.lines| - 1 && p.col == 0 && p.lines[p.row] == Blanks(width))
  }

  ghost function Blanks(n: nat): seq<nat> {
    seq(n, _ => BLANK)
  }

  /** On to the start of the next line. */
  ghost function Advance(p: Paper, width: nat): Paper {
    if p.row + 1 < |p.lines| then p.(row := p.row + 1, col := 0)
    else Paper(p.lines + [Blanks(width)], p.row + 1, 0, true)
  }

  /** One character on the paper. */
  ghost function Feed(p: Paper, c: nat, width: nat): (r: Paper)
    requires Sound(p, width)
    ensures Sound(r, width)
    ensures |p.lines| <= |r.lines| <= |p.lines| + 1
    ensures p.lines[..p.row] == r.lines[..p.row] && p.row <= r.row
  {
    var q := p.(pending := false);
    var line: seq<nat> := p.lines[p.row];
    if c % 256 == NEWLINE then
      Advance(q.(lines := q.lines[p.row := line[..p.col] + Blanks(width - p.col)]), width)
    else if c % 256 == RETURN then q.(col := 0)
    else
      var r := q.(lines := q.lines[p.row := line[p.col := Cell(c)]], col := q.col + 1);
      if r.col < width then r else Advance(r, width)
  }

  ghost function FeedAll(p: Paper, cs: seq<nat>, width: nat): (r: Paper)
    requires Sound(p, width)
    ensures Sound(r, width)
  {
    if cs == [] then p else Feed(FeedAll(p, cs[..|cs| - 1], width), cs[|cs| - 1], width)
  }

  /** What is above the writing position never changes again. */
  lemma {:induction false} WrittenStays(p: Paper, cs: seq<nat>, width: nat)
    requires Sound(p, width)
    ensures var r := FeedAll(p, cs, width);
            |r.lines| >= |p.lines| && r.row >= p.row && r.lines[..p.row] == p.lines[..p.row]
  {
    if cs != [] {
      var q := FeedAll(p, cs[..|cs| - 1], width);
      WrittenStays(p, cs[..|cs| - 1], width);
      var r := Feed(q, cs[|cs| - 1], width);
      assert r.lines[..p.row] == r.lines[..q.row][..p.row];
    }
  }

  /** A character that is neither a newline nor a return. */
  predicate Plain(c: nat) {
    c % 256 != NEWLINE && c % 256 != RETURN
  }

  /** A return on the paper: back to the first column of the line, which stays as it is. */
  lemma FeedReturn(p: Paper, c: nat, width: nat)
    requires Sound(p, width) && c % 256 == RETURN
    ensures var r := Feed(p, c, width); r.lines == p.lines && r.row == p.row && r.col == 0 && !r.pending
  {
  }

  /** Plain text from the first column of a line overwrites it from there, and leaves the rest of it. */
  lemma {:induction false} LineOverwritten(p: Paper, cs: seq<nat>, width: nat)
    requires Sound(p, width) && p.col == 0 && |cs| < width && forall i :: 0 <= i < |cs| ==> Plain(cs[i])
    ensures var r := FeedAll(p, cs, width);
            && r.row == p.row && r.col == |cs| && |r.lines| == |p.lines|
            && (forall i :: 0 <= i < width ==> r.lines[p.row][i] == if i < |cs| then Cell(cs[i]) else p.lines[p.row][i])
  {
    hide Feed, Blanks, Cell;
    if cs != [] {
      var last := |cs| - 1;
      LineOverwritten(p, cs[..last], width);
      FeedPlain(FeedAll(p, cs[..last], width), cs[last], width);
    }
  }

  /** Text after a return overwrites the line from its first column. */
  lemma ReturnOverwrites(p: Paper, c: nat, cs: seq<nat>, width: nat)
    requires Sound(p, width) && c % 256 == RETURN && |cs| < width && forall i :: 0 <= i < |cs| ==> Plain(cs[i])
    ensures var r := FeedAll(Feed(p, c, width), cs, width);
            && r.row == p.row && r.col == |cs| && |r.lines| == |p.lines|
            && (forall i :: 0 <= i < width ==> r.lines[p.row][i] == if i < |cs| then Cell(cs[i]) else p.lines[p.row][i])
  {
    hide Feed, FeedAll, Blanks, Cell, Sound;
    FeedReturn(p, c, width);
    LineOverwritten(Feed(p, c, width), cs, width);
  }

  /** How many places, in reading order, come before the writing position. */
  ghost function Place(p: Paper, width: nat): nat {
    p.row * width + p.col
  }

  /** `r` holds this cell where `q` was about to be written. */
  ghost predicate Holds(r: Paper, q: Paper, cell: nat) {
    q.row < |r.lines| && q.col < |r.lines[q.row]| && r.lines[q.row][q.col] == cell
  }

  /** Plain text is laid out in reading order, wrapped at the width, and none of it is overwritten. */
  lemma {:induction false} PlainText(p: Paper, cs: seq<nat>, width: nat, k: nat)
    requires Sound(p, width) && k < |cs| && forall i :: 0 <= i < |cs| ==> Plain(cs[i])
    ensures Place(FeedAll(p, cs[..k], width), width) == Place(p, width) + k
    ensures Holds(FeedAll(p, cs, width), FeedAll(p, cs[..k], width), Cell(cs[k]))
  {
    hide Feed, Place, Sound, Holds;
    var last := |cs| - 1;
    PlainPosition(p, cs[..last], width);
    PlainPosition(p, cs[..k], width);
    var m := FeedAll(p, cs[..last], width);
    PlainStep(m, cs[last], width);
    if k < last {
      PlainText(p, cs[..last], width, k);
      assert cs[..last][..k] == cs[..k];
      PlainKeeps(FeedAll(p, cs[..k], width), m, cs[last], width, Cell(cs[k]));
    }
  }

  lemma PlaceOrders(q: Paper, p: Paper, width: nat)
    requires Sound(p, width) && Sound(q, width) && Place(q, width) < Place(p, width)
    ensures q.row < p.row || (q.row == p.row && q.col < p.col)
  {
    RowsApart(p.row, q.row, width);
  }

  lemma {:induction false} RowsApart(a: nat, b: nat, width: nat)
    ensures a < b ==> a * width + width <= b * width
  {
    if a + 1 < b {
      RowsApart(a, b - 1, width);
      assert b * width == (b - 1) * width + width;
    } else if a + 1 == b {
      assert b * width == a * width + width;
    }
  }

  /** Nothing before the writing position changes. */
  lemma PlainKeeps(q: Paper, p: Paper, c: nat, width: nat, cell: nat)
    requires Sound(p, width) && Sound(q, width) && Plain(c) && Place(q, width) < Place(p, width)
    requires Holds(p, q, cell)
    ensures Holds(Feed(p, c, width), q, cell)
  {
    hide Feed, Place;
    PlaceOrders(q, p, width);
    FeedPlain(p, c, width);
  }

  lemma PlainStep(p: Paper, c: nat, width: nat)
    requires Sound(p, width) && Plain(c)
    ensures Place(Feed(p, c, width), width) == Place(p, width) + 1
    ensures Holds(Feed(p, c, width), p, Cell(c))
  {
    assert (p.row + 1) * width == p.row * width + width;
  }

  lemma {:induction false} PlainPosition(p: Paper, cs: seq<nat>, width: nat)
    requires Sound(p, width) && forall i :: 0 <= i < |cs| ==> Plain(cs[i])
    ensures Place(FeedAll(p, cs, width), width) == Place(p, width) + |cs|
  {
    hide Place, Feed;
    if cs != [] {
      PlainPosition(p, cs[..|cs| - 1], width);
      PlainStep(FeedAll(p, cs[..|cs| - 1], width), cs[|cs| - 1], width);
    }
  }

  lemma FeedRevealed(p: Paper, c: nat, width: nat)
    requires Sound(p, width)
    ensures Sound(p.(pending := false), width) && Feed(p.(pending := false), c, width) == Feed(p, c, width)
  {
  }

  /** A plain character on the paper, cell by cell. */
  lemma FeedPlain(p: Paper, c: nat, width: nat)
    requires Sound(p, width) && Plain(c)
    ensures var r := Feed(p, c, width);
            && (forall j :: 0 <= j < |p.lines| && j != p.row ==> r.lines[j] == p.lines[j])
            && (forall i :: 0 <= i < width ==> r.lines[p.row][i] == if i == p.col then Cell(c) else p.lines[p.row][i])
            && (if p.col + 1 < width then r.row == p.row && r.col == p.col + 1 else r.row == p.row + 1 && r.col == 0)
            && (r.pending <==> r.row == |p.lines|)
            && |r.lines| == |p.lines| + if r.pending then 1 else 0
  {
  }

  /** A newline on the paper, cell by cell. */
  lemma FeedNewline(p: Paper, c: nat, width: nat)
    requires Sound(p, width) && c % 256 == NEWLINE
    ensures var r := Feed(p, c, width);
            && (forall j :: 0 <= j < |p.lines| && j != p.row ==> r.lines[j] == p.lines[j])
            && (forall i :: 0 <= i < width ==> r.lines[p.row][i] == if i >= p.col then BLANK else p.lines[p.row][i])
            && r.row == p.row + 1 && r.col == 0 && (r.pending <==> r.row == |p.lines|)
            && |r.lines| == |p.lines| + if r.pending then 1 else 0
  {
  }

  // -------- The screen --------

  class Screen {
    const cells: array2<nat>
    var scrollMinX: nat
    var scrollMinY: nat
    var scrollMaxX: nat
    var scrollMaxY: nat
    var currX: nat
    var currY: nat
    var cursor: nat  // what the hardware was last told

    /** The cursor is in the region, or at its left edge one row below. */
    ghost predicate Valid()
      reads this
    {
      && cells.Length0 == ROWS && cells.Length1 == COLUMNS
      && scrollMinX <= scrollMaxX < COLUMNS && scrollMinY <= scrollMaxY < ROWS
      && scrollMinX <= currX <= scrollMaxX && scrollMinY <= currY <= scrollMaxY + 1
      && (currY > scrollMaxY ==> currX == scrollMinX)
    }

    predicate InRegion(y: int, x: int)
      reads this
    {
      scrollMinY <= y <= scrollMaxY && scrollMinX <= x <= scrollMaxX
    }

    function Width(): nat
      requires Valid()
      reads this
    {
      scrollMaxX - scrollMinX + 1
    }

    function Height(): nat
      requires Valid()
      reads this
    {
      scrollMaxY - scrollMinY + 1
    }

    /** The line of the paper at the top of the region: a line just added is not shown yet. */
    ghost function Top(p: Paper): int
      requires Valid()
      reads this
    {
      |p.lines| - Height() - if p.pending then 1 else 0
    }

    /** The region shows the last lines of the paper, and the cursor is where the paper is written. */
    ghost predicate Shows(p: Paper)
      reads this, cells
    {
      && Valid() && Sound(p, Width()) && Top(p) >= 0
      && currX == scrollMinX + p.col && currY == scrollMinY + p.row - Top(p)
      && (p.pending <==> currY > scrollMaxY)
      && forall y, x :: InRegion(y, x) ==> cells[y, x] == p.lines[Top(p) + y - scrollMinY][x - scrollMinX]
    }

    twostate predicate OutsideUnchanged()
      requires Valid()
      reads this, cells
    {
      forall y, x :: 0 <= y < ROWS && 0 <= x < COLUMNS && !InRegion(y, x) ==> cells[y, x] == old(cells[y, x])
    }

    twostate predicate SameRegion()
      reads this
    {
      && scrollMinX == old(scrollMinX) && scrollMaxX == old(scrollMaxX)
      && scrollMinY == old(scrollMinY) && scrollMaxY == old(scrollMaxY)
    }

    /** c_io_init */
    constructor ()
      ensures Valid() && scrollMinX == scrollMinY == 0 && scrollMaxX == COLUMNS - 1 && scrollMaxY == ROWS - 1
      ensures fresh(cells)
    {
      cells := new nat[ROWS, COLUMNS]((_, _) => BLANK);
      scrollMinX, scrollMinY, scrollMaxX, scrollMaxY := 0, 0, COLUMNS - 1, ROWS - 1;
      currX, currY, cursor := 0, 0, 0;
    }

    /** __c_setcursor */
    method SetCursor()
      requires Valid()
      modifies `cursor
      ensures Valid() && cursor == (if currY > scrollMaxY then scrollMaxY else currY) * COLUMNS + currX
    {
      var y := if currY > scrollMaxY then scrollMaxY else currY;
      cursor := y * COLUMNS + currX;
    }

    /** __c_putchar_at */
    method PutCell(x: nat, y: nat, c: nat)
      requires Valid()
      modifies cells
      ensures forall i, j :: 0 <= i < ROWS && 0 <= j < COLUMNS ==>
                cells[i, j] == if i == y && j == x then Cell(c) else old(cells[i, j])
    {
      if x < COLUMNS && y < ROWS {
        cells[y, x] := Cell(c);
      }
    }

    /** c_setscroll: the region is clamped to the screen and shows what is there as its first lines. */
    method SetScroll(minX: nat, minY: nat, maxX: nat, maxY: nat) returns (ghost p: Paper)
      requires Valid()
      modifies this
      ensures Shows(p) && p.row == 0 && p.col == 0 && !p.pending
      ensures Nearest(scrollMinX, 0, minX, COLUMNS - 1) && Nearest(scrollMinY, 0, minY, ROWS - 1)
      ensures Nearest(scrollMaxX, scrollMinX, maxX, COLUMNS - 1) && Nearest(scrollMaxY, scrollMinY, maxY, ROWS - 1)
    {
      scrollMinX := Bound(0, minX, COLUMNS - 1);
      scrollMinY := Bound(0, minY, ROWS - 1);
      scrollMaxX := Bound(scrollMinX, maxX, COLUMNS - 1);
      scrollMaxY := Bound(scrollMinY, maxY, ROWS - 1);
      currX := scrollMinX;
      currY := scrollMinY;
      SetCursor();
      p := Snapshot();
    }

    /** A line of the region, as the screen shows it. */
    ghost function Row(y: nat): (line: seq<nat>)
      requires Valid() && scrollMinY <= y <= scrollMaxY
      reads this, cells
      ensures |line| == Width()
      ensures forall x :: scrollMinX <= x <= scrollMaxX ==> line[x - scrollMinX] == cells[y, x]
    {
      seq(Width(), i requires Valid() && scrollMinY <= y <= scrollMaxY && 0 <= i < Width() reads this, cells =>
          cells[y, scrollMinX + i])
    }

    /** The region as paper. */
    ghost method Snapshot() returns (p: Paper)
      requires Valid() && currX == scrollMinX && currY == scrollMinY
      ensures Shows(p) && p.row == 0 && p.col == 0 && !p.pending && |p.lines| == Height()
    {
      var lines := [];
      for h := 0 to Height()
        invariant |lines| == h && forall j :: 0 <= j < h ==> |lines[j]| == Width()
        invariant forall y, x :: InRegion(y, x) && y < scrollMinY + h ==>
                    cells[y, x] == lines[y - scrollMinY][x - scrollMinX]
      {
        lines := lines + [Row(scrollMinY + h)];
      }
      p := Paper(lines, 0, 0, false);
    }

    /** The cursor goes to the nearest place in the region. */
    method PlaceCursor(x: nat, y: nat)
      requires Valid() && x < UNSIGNED && y < UNSIGNED
      modifies `currX, `currY, `cursor
      ensures Valid() && scrollMinX <= currX <= scrollMaxX && scrollMinY <= currY <= scrollMaxY
      ensures Nearest(currX, scrollMinX, (x + scrollMinX) % UNSIGNED, scrollMaxX)
      ensures Nearest(currY, scrollMinY, (y + scrollMinY) % UNSIGNED, scrollMaxY)
    {
      currX := Bound(scrollMinX, (x + scrollMinX) % UNSIGNED, scrollMaxX);
      currY := Bound(scrollMinY, (y + scrollMinY) % UNSIGNED, scrollMaxY);
      SetCursor();
    }

    /** c_moveto, in 32 bits, with the paper that the region then shows: a line not shown yet is given up. */
    method MoveTo(x: nat, y: nat, ghost p: Paper) returns (ghost r: Paper)
      requires Shows(p) && x < UNSIGNED && y < UNSIGNED
      modifies this
      ensures Shows(r) && SameRegion() && !r.pending
      ensures r.lines == if p.pending then p.lines[..|p.lines| - 1] else p.lines
      ensures Nearest(currX, scrollMinX, (x + scrollMinX) % UNSIGNED, scrollMaxX)
      ensures Nearest(currY, scrollMinY, (y + scrollMinY) % UNSIGNED, scrollMaxY)
    {
      hide Blanks, Nearest;
      PlaceCursor(x, y);
      var top := Top(p);
      var lines := if p.pending then p.lines[..|p.lines| - 1] else p.lines;
      r := Paper(lines, top + currY - scrollMinY, currX - scrollMinX, false);
    }

    /** c_clearscroll */
    method ClearScroll()
      requires Valid()
      modifies cells
      ensures forall y, x :: InRegion(y, x) ==> cells[y, x] == BLANK
      ensures OutsideUnchanged()
    {
      for l := scrollMinY to scrollMaxY + 1
        invariant forall y, x :: InRegion(y, x) && y < l ==> cells[y, x] == BLANK
        invariant OutsideUnchanged()
      {
        for c := 0 to Width()
          invariant forall y, x :: InRegion(y, x) && (y < l || (y == l && x < scrollMinX + c)) ==> cells[y, x] == BLANK
          invariant OutsideUnchanged()
        {
          cells[l, scrollMinX + c] := BLANK;
        }
      }
    }

    /** c_scroll: the region moves up by so many lines, and blank ones follow. */
    method Scroll(lines: nat)
      requires Valid()
      modifies cells, `currX, `currY, `cursor
      ensures Valid() && OutsideUnchanged()
      ensures forall y, x :: InRegion(y, x) ==>
                cells[y, x] == if y + lines <= scrollMaxY then old(cells[y + lines, x]) else BLANK
      ensures if lines >= Height() then currX == scrollMinX && currY == scrollMinY
              else currX == old(currX) && currY == old(currY)
    {
      if lines > scrollMaxY - scrollMinY {
        ClearScroll();
        currX := scrollMinX;
        currY := scrollMinY;
        SetCursor();
        return;
      }
      ShiftUp(lines);
    }

    /** The two loops of c_scroll. */
    method ShiftUp(lines: nat)
      requires Valid() && lines < Height()
      modifies cells
      ensures OutsideUnchanged()
      ensures forall y, x :: InRegion(y, x) ==>
                cells[y, x] == if y + lines <= scrollMaxY then old(cells[y + lines, x]) else BLANK
    {
      for line := scrollMinY to scrollMaxY - lines + 1
        invariant OutsideUnchanged()
        invariant forall y, x :: InRegion(y, x) ==>
                    cells[y, x] == if y < line then old(cells[y + lines, x]) else old(cells[y, x])
      {
        CopyLine(line, lines);
      }
      for line := scrollMaxY - lines + 1 to scrollMaxY + 1
        invariant OutsideUnchanged()
        invariant forall y, x :: InRegion(y, x) ==>
                    cells[y, x] == if y + lines <= scrollMaxY then old(cells[y + lines, x])
                                   else if y < line then BLANK else old(cells[y, x])
      {
        EraseFrom(scrollMinX, line);
      }
    }

    /** One line of the region takes the contents of a later one. */
    method CopyLine(line: nat, lines: nat)
      requires Valid() && scrollMinY <= line && line + lines <= scrollMaxY
      modifies cells
      ensures forall y, x :: 0 <= y < ROWS && 0 <= x < COLUMNS ==>
                cells[y, x] == if y == line && InRegion(y, x) then old(cells[y + lines, x]) else old(cells[y, x])
    {
      for c := 0 to Width()
        invariant forall y, x :: 0 <= y < ROWS && 0 <= x < COLUMNS ==>
                    cells[y, x] == if y == line && scrollMinX <= x < scrollMinX + c then old(cells[y + lines, x])
                                   else old(cells[y, x])
      {
        cells[line, scrollMinX + c] := cells[line + lines, scrollMinX + c];
      }
    }

    /** One line of the region is blanked from a column on. */
    method EraseFrom(from: nat, line: nat)
      requires Valid() && scrollMinX <= from <= scrollMaxX + 1 && scrollMinY <= line <= scrollMaxY
      modifies cells
      ensures forall y, x :: 0 <= y < ROWS && 0 <= x < COLUMNS ==>
                cells[y, x] == if y == line && from <= x <= scrollMaxX then BLANK else old(cells[y, x])
    {
      for c := from to scrollMaxX + 1
        invariant forall y, x :: 0 <= y < ROWS && 0 <= x < COLUMNS ==>
                    cells[y, x] == if y == line && from <= x < c then BLANK else old(cells[y, x])
      {
        cells[line, c] := BLANK;
      }
    }

    /** The delayed scroll: a line that was held back comes into view. */
    method Reveal(ghost p: Paper)
      requires Shows(p)
      modifies cells, `currX, `currY, `cursor
      ensures Shows(p.(pending := false)) && OutsideUnchanged()
    {
      hide Feed, FeedAll;
      if currY > scrollMaxY {
        Scroll(currY - scrollMaxY);
        currY := scrollMaxY;
      }
    }

    /** c_putchar: one more character on the paper; no cell outside the region changes. */
    method Putchar(c: nat, ghost p: Paper)
      requires Shows(p)
      modifies cells, `currX, `currY, `cursor
      ensures Valid() && Shows(Feed(p, c, Width())) && OutsideUnchanged()
      ensures cursor == (if currY > scrollMaxY then scrollMaxY else currY) * COLUMNS + currX
    {
      hide Feed, Sound, Blanks;
      FeedRevealed(p, c, Width());
      Reveal(p);
      Type(c, p.(pending := false));
      SetCursor();
    }

    /** The switch of c_putchar. */
    method Type(c: nat, ghost p: Paper)
      requires Shows(p) && !p.pending
      modifies cells, `currX, `currY
      ensures Valid() && Shows(Feed(p, c, Width())) && OutsideUnchanged()
    {
      if c % 256 == NEWLINE {
        NewLine(c, p);
      } else if c % 256 == RETURN {
        currX := scrollMinX;
      } else {
        PutPlain(c, p);
      }
    }

    /** The newline case of the switch. */
    method NewLine(c: nat, ghost p: Paper)
      requires Shows(p) && !p.pending && c % 256 == NEWLINE
      modifies cells, `currX, `currY
      ensures Valid() && Shows(Feed(p, c, Width())) && OutsideUnchanged()
    {
      hide Feed, Blanks, Cell;
      FeedNewline(p, c, Width());
      EraseFrom(currX, currY);
      currX := scrollMinX;
      currY := currY + 1;
    }

    /** The default case of the switch. */
    method PutPlain(c: nat, ghost p: Paper)
      requires Shows(p) && !p.pending && Plain(c)
      modifies cells, `currX, `currY
      ensures Valid() && Shows(Feed(p, c, Width())) && OutsideUnchanged()
    {
      hide Feed, Blanks, Cell, Sound;
      ghost var r, top := Feed(p, c, Width()), Top(p);
      FeedPlain(p, c, Width());
      DrawPlain(c, p, r, top);
      AfterPlain();
      assert Top(r) == top;
    }

    /** The cursor after a plain character. */
    method AfterPlain()
      requires Valid() && currY <= scrollMaxY
      modifies `currX, `currY
      ensures Valid()
      ensures if old(currX) < scrollMaxX then currX == old(currX) + 1 && currY == old(currY)
              else currX == scrollMinX && currY == old(currY) + 1
    {
      currX := currX + 1;
      if currX > scrollMaxX {
        currX := scrollMinX;
        currY := currY + 1;
      }
    }

    /** The cell of a plain character. */
    method DrawPlain(c: nat, ghost p: Paper, ghost r: Paper, ghost top: int)
      requires Shows(p) && !p.pending && Plain(c) && r == Feed(p, c, Width()) && top == Top(p)
      modifies cells
      ensures Valid() && OutsideUnchanged()
      ensures (forall j :: 0 <= j < |r.lines| ==> |r.lines[j]| == Width()) && |r.lines| >= top + Height()
      ensures forall y, x :: InRegion(y, x) ==> cells[y, x] == r.lines[top + y - scrollMinY][x - scrollMinX]
    {
      hide Feed, Blanks, Cell;
      FeedPlain(p, c, Width());
      PutCell(currX, currY, c);
    }

    /** c_puts */
    method Puts(str: seq<nat>, ghost p: Paper)
      requires Shows(p) && 0 !in str
      modifies cells, `currX, `currY, `cursor
      ensures Valid() && Shows(FeedAll(p, str, Width())) && OutsideUnchanged()
    {
      var n := 0;
      while n < |str|
        invariant n <= |str| && Valid() && Shows(FeedAll(p, str[..n], Width())) && OutsideUnchanged()
      {
        assert str[..n + 1][..n] == str[..n];
        Putchar(str[n], FeedAll(p, str[..n], Width()));
        n := n + 1;
      }
      assert str[..n] == str;
    }

    /** c_putchar_at; a newline blanks as far as the region's edge, on whichever side of it `x` is. */
    method PutcharAt(x: nat, y: nat, c: nat)
      requires Valid() && x < UNSIGNED && y < UNSIGNED
      modifies cells
      ensures c % 128 != NEWLINE ==>
                forall i, j :: 0 <= i < ROWS && 0 <= j < COLUMNS ==>
                  cells[i, j] == if i == y && j == x then Cell(c) else old(cells[i, j])
      ensures c % 128 == NEWLINE ==>
                forall i, j :: 0 <= i < ROWS && 0 <= j < COLUMNS ==>
                  cells[i, j] ==
                  if i == y && x <= j && (scrollMinX <= j <= scrollMaxX <==> scrollMinX <= x <= scrollMaxX)
                     && (x < scrollMinX ==> j < scrollMinX)
                  then BLANK else old(cells[i, j])
    {
      if c % 128 == NEWLINE {
        var limit: int :=
          if x > scrollMaxX then COLUMNS - 1 else if x >= scrollMinX then scrollMaxX else scrollMinX - 1;
        var at := x;
        while at <= limit
          invariant x <= at && (x <= limit ==> at <= limit + 1)
          invariant forall i, j :: 0 <= i < ROWS && 0 <= j < COLUMNS ==>
                      cells[i, j] == if i == y && x <= j < at then BLANK else old(cells[i, j])
        {
          PutCell(at, y, 32);
          at := at + 1;
        }
      } else {
        PutCell(x, y, c);
      }
    }
  }
}
