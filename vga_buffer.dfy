/** The text-mode console writer (src/vga_buffer.rs): an 80 x 25 grid of
    (character, colour) cells, a cursor offset into it, byte writes in
    place and scrolling by one row. */
module VgaBuffer {

  const SCREEN_WIDTH: nat := 80
  const SCREEN_HEIGHT: nat := 25
  const CELLS: nat := 2000
  const NEWLINE: bv8 := 0x0A
  const SPACE: bv8 := 0x20
  /** Code page 437's full block, shown for bytes that are not printable. */
  const BLOCK: bv8 := 219

  // ---------------------------------------------------------------------
  // Colours

  datatype VGAColor =
    | Black | Blue | Green | Cyan | Red | Magenta | Brown | LightGray
    | DarkGray | LightBlue | LightGreen | LightCyan | LightRed | LightMagenta | Yellow | White

  /** The discriminant each colour is declared with. */
  function ColorValue(c: VGAColor): (v: bv8)
    ensures v < 16
  {
    match c
    case Black => 0x0
    case Blue => 0x1
    case Green => 0x2
    case Cyan => 0x3
    case Red => 0x4
    case Magenta => 0x5
    case Brown => 0x6
    case LightGray => 0x7
    case DarkGray => 0x8
    case LightBlue => 0x9
    case LightGreen => 0xa
    case LightCyan => 0xb
    case LightRed => 0xc
    case LightMagenta => 0xd
    case Yellow => 0xe
    case White => 0xf
  }

  /** The colour a 4-bit value names. */
  function ColorOfNibble(n: bv8): (c: VGAColor)
    requires n < 16
    ensures ColorValue(c) == n
  {
    if n == 0x0 then Black
    else if n == 0x1 then Blue
    else if n == 0x2 then Green
    else if n == 0x3 then Cyan
    else if n == 0x4 then Red
    else if n == 0x5 then Magenta
    else if n == 0x6 then Brown
    else if n == 0x7 then LightGray
    else if n == 0x8 then DarkGray
    else if n == 0x9 then LightBlue
    else if n == 0xa then LightGreen
    else if n == 0xb then LightCyan
    else if n == 0xc then LightRed
    else if n == 0xd then LightMagenta
    else if n == 0xe then Yellow
    else White
  }

  /** The attribute byte: background in the high nibble, foreground in the low. */
  function ColorCode(fg: VGAColor, bg: VGAColor): (code: bv8) {
    (ColorValue(bg) << 4) | ColorValue(fg)
  }

  /** Both colours can be read back from the attribute byte. */
  lemma ColorCodeRoundTrip(fg: VGAColor, bg: VGAColor)
    ensures ColorCode(fg, bg) & 0x0F == ColorValue(fg)
    ensures ColorCode(fg, bg) >> 4 == ColorValue(bg)
    ensures ColorOfNibble(ColorCode(fg, bg) & 0x0F) == fg
    ensures ColorOfNibble(ColorCode(fg, bg) >> 4) == bg
  {
    var f, b := ColorValue(fg), ColorValue(bg);
    assert ((b << 4) | f) & 0x0F == f;
    assert ((b << 4) | f) >> 4 == b;
    ColorOfNibbleOfValue(fg);
    ColorOfNibbleOfValue(bg);
  }

  lemma ColorOfNibbleOfValue(c: VGAColor)
    ensures ColorOfNibble(ColorValue(c)) == c
  {
  }

  /** Distinct colour pairs give distinct attribute bytes. */
  lemma ColorCodeInjective(fg1: VGAColor, bg1: VGAColor, fg2: VGAColor, bg2: VGAColor)
    requires ColorCode(fg1, bg1) == ColorCode(fg2, bg2)
    ensures fg1 == fg2 && bg1 == bg2
  {
    ColorCodeRoundTrip(fg1, bg1);
    ColorCodeRoundTrip(fg2, bg2);
  }

  // ---------------------------------------------------------------------
  // The screen as a value

  datatype VGAChar = VGAChar(ch: bv8, color: bv8)

  /** The cursor offset and the 2000 cells, row after row. */
  datatype Screen = Screen(offset: nat, cells: seq<VGAChar>)

  /** A full grid with the cursor on it or just past its last cell. */
  predicate ScreenOk(s: Screen) {
    |s.cells| == CELLS && s.offset <= CELLS
  }

  function Blank(color: bv8): VGAChar {
    VGAChar(SPACE, color)
  }

  /** Every row moves up by one; the last row becomes blank. */
  function Scrolled(cells: seq<VGAChar>, color: bv8): (r: seq<VGAChar>)
    requires |cells| == CELLS
    ensures |r| == CELLS
    ensures forall i :: 0 <= i < CELLS - SCREEN_WIDTH ==> r[i] == cells[i + SCREEN_WIDTH]
    ensures forall i :: CELLS - SCREEN_WIDTH <= i < CELLS ==> r[i] == Blank(color)
  {
    cells[SCREEN_WIDTH..] + seq(SCREEN_WIDTH, _ => Blank(color))
  }

  /** The byte a string write passes on: printable ASCII and newline as
      they are, anything else as the full block. */
  function ShownAs(b: bv8): bv8 {
    if 0x20 <= b <= 0x7E || b == NEWLINE then b else BLOCK
  }

  lemma ShownAsCases(b: bv8)
    ensures ShownAs(b) == b <==> (0x20 <= b <= 0x7E || b == NEWLINE || b == BLOCK)
    ensures ShownAs(b) != b ==> ShownAs(b) == BLOCK
    ensures ShownAs(b) == NEWLINE || 0x20 <= ShownAs(b) <= 0x7E || ShownAs(b) == BLOCK
  {
  }

  // ---------------------------------------------------------------------
  // The writer's steps as written

  /** Newline as written: back to the start of the row, down one row, and
      a scroll only when that lands exactly on the end of the grid. */
  function AfterNewlineAsWritten(s: Screen, color: bv8): (t: Screen)
    requires |s.cells| == CELLS
    ensures |t.cells| == CELLS
  {
    var o := s.offset - s.offset % SCREEN_WIDTH + SCREEN_WIDTH;
    if o == CELLS then Screen(o - SCREEN_WIDTH, Scrolled(s.cells, color))
    else Screen(o, s.cells)
  }

  /** A byte write as written; the store indexes the grid at the cursor,
      which must lie on it. */
  function AfterWriteAsWritten(s: Screen, color: bv8, b: bv8): (t: Screen)
    requires |s.cells| == CELLS
    requires b == NEWLINE || s.offset < CELLS
    ensures |t.cells| == CELLS
  {
    if b == NEWLINE then AfterNewlineAsWritten(s, color)
    else Screen(s.offset + 1, s.cells[s.offset := VGAChar(b, color)])
  }

  /** Newline at the very end of the grid leaves the cursor a row past it,
      with no scroll. */
  lemma NewlineAsWrittenOverruns(s: Screen, color: bv8)
    requires |s.cells| == CELLS && s.offset == CELLS
    ensures AfterNewlineAsWritten(s, color) == Screen(CELLS + SCREEN_WIDTH, s.cells)
  {
  }

  /** Filling the last cell and then starting a new line puts the cursor
      off the grid, so the next byte write indexes out of bounds. */
  lemma LastCellThenNewlineOverruns(s: Screen, color: bv8, b: bv8)
    requires |s.cells| == CELLS && s.offset == CELLS - 1 && b != NEWLINE
    ensures AfterWriteAsWritten(s, color, b).offset == CELLS
    ensures AfterNewlineAsWritten(AfterWriteAsWritten(s, color, b), color).offset >= CELLS
  {
    NewlineAsWrittenOverruns(AfterWriteAsWritten(s, color, b), color);
  }

  // ---------------------------------------------------------------------
  // The writer's steps, corrected so that the cursor stays on the grid

  /** Newline: back to the start of the row and down one; past the last row
      the grid scrolls and the cursor sits at the start of the last row. */
  function AfterNewline(s: Screen, color: bv8): (t: Screen)
    requires ScreenOk(s)
    ensures ScreenOk(t) && t.offset < CELLS && t.offset % SCREEN_WIDTH == 0
  {
    var o := s.offset - s.offset % SCREEN_WIDTH + SCREEN_WIDTH;
    if o >= CELLS then Screen(CELLS - SCREEN_WIDTH, Scrolled(s.cells, color))
    else Screen(o, s.cells)
  }

  /** A byte write: newline moves the cursor; any other byte is stored at
      the cursor, after a newline when the grid is full. */
  function AfterWrite(s: Screen, color: bv8, b: bv8): (t: Screen)
    requires ScreenOk(s)
    ensures ScreenOk(t)
  {
    if b == NEWLINE then AfterNewline(s, color)
    else
      var w := if s.offset == CELLS then AfterNewline(s, color) else s;
      Screen(w.offset + 1, w.cells[w.offset := VGAChar(b, color)])
  }

  /** A string write: each byte in turn, left to right, after ShownAs. */
  function AfterString(s: Screen, color: bv8, bytes: seq<bv8>): (t: Screen)
    requires ScreenOk(s)
    ensures ScreenOk(t)
  {
    if |bytes| == 0 then s
    else AfterWrite(AfterString(s, color, bytes[..|bytes| - 1]), color, ShownAs(bytes[|bytes| - 1]))
  }

  /** On the grid, the corrected newline is the written one. */
  lemma NewlineAgrees(s: Screen, color: bv8)
    requires |s.cells| == CELLS && s.offset < CELLS
    ensures AfterNewlineAsWritten(s, color) == AfterNewline(s, color)
  {
  }

  /** On the grid, the corrected byte write is the written one. */
  lemma WriteAgrees(s: Screen, color: bv8, b: bv8)
    requires |s.cells| == CELLS && s.offset < CELLS
    ensures AfterWriteAsWritten(s, color, b) == AfterWrite(s, color, b)
  {
    NewlineAgrees(s, color);
  }

  /** Above the last row a newline moves to the start of the next row and
      changes no cell. */
  lemma NewlineMovesDown(s: Screen, color: bv8)
    requires ScreenOk(s) && s.offset < CELLS - SCREEN_WIDTH
    ensures AfterNewline(s, color).cells == s.cells
    ensures AfterNewline(s, color).offset == s.offset - s.offset % SCREEN_WIDTH + SCREEN_WIDTH
    ensures AfterNewline(s, color).offset / SCREEN_WIDTH == s.offset / SCREEN_WIDTH + 1
  {
  }

  /** On the last row a newline scrolls: each cell takes the one a row
      below, the last row is blank and the cursor starts the last row. */
  lemma NewlineScrolls(s: Screen, color: bv8)
    requires ScreenOk(s) && s.offset >= CELLS - SCREEN_WIDTH
    ensures AfterNewline(s, color).offset == CELLS - SCREEN_WIDTH
    ensures forall i :: 0 <= i < CELLS - SCREEN_WIDTH ==>
      AfterNewline(s, color).cells[i] == s.cells[i + SCREEN_WIDTH]
    ensures forall i :: CELLS - SCREEN_WIDTH <= i < CELLS ==>
      AfterNewline(s, color).cells[i] == Blank(color)
  {
  }

  /** A byte other than newline lands at the cursor, which moves on by one;
      no other cell changes. */
  lemma WriteStores(s: Screen, color: bv8, b: bv8)
    requires ScreenOk(s) && s.offset < CELLS && b != NEWLINE
    ensures AfterWrite(s, color, b).offset == s.offset + 1
    ensures AfterWrite(s, color, b).cells[s.offset] == VGAChar(b, color)
    ensures forall i :: 0 <= i < CELLS && i != s.offset ==>
      AfterWrite(s, color, b).cells[i] == s.cells[i]
  {
  }

  /** Printable text that fits before the end of the grid is laid out from
      the cursor on, one cell per byte, in order; other cells keep their
      contents. */
  lemma {:induction false} StringLaidOut(s: Screen, color: bv8, bytes: seq<bv8>)
    requires ScreenOk(s) && s.offset + |bytes| <= CELLS
    requires forall k :: 0 <= k < |bytes| ==> 0x20 <= bytes[k] <= 0x7E
    ensures AfterString(s, color, bytes).offset == s.offset + |bytes|
    ensures forall k :: 0 <= k < |bytes| ==>
      AfterString(s, color, bytes).cells[s.offset + k] == VGAChar(bytes[k], color)
    ensures forall i :: 0 <= i < CELLS && !(s.offset <= i < s.offset + |bytes|) ==>
      AfterString(s, color, bytes).cells[i] == s.cells[i]
  {
    if |bytes| > 0 {
      var init := bytes[..|bytes| - 1];
      var last := bytes[|bytes| - 1];
      StringLaidOut(s, color, init);
      var mid := AfterString(s, color, init);
      assert ShownAs(last) == last;
      WriteStores(mid, color, last);
      forall k | 0 <= k < |bytes|
        ensures AfterString(s, color, bytes).cells[s.offset + k] == VGAChar(bytes[k], color)
      {
        if k < |bytes| - 1 {
          assert init[k] == bytes[k];
        }
      }
    }
  }

  // ---------------------------------------------------------------------
  // The writer over the mutable cell buffer

  class VGAWriter {
    var offset: nat
    var color: bv8
    const buf: array<VGAChar>

    ghost predicate Valid()
      reads this
    {
      buf.Length == CELLS && offset <= CELLS
    }

    function State(): Screen
      reads this, buf
    {
      Screen(offset, buf[..])
    }

    /** A writer at the top left of `buf`, which it does not clear. */
    constructor (buf: array<VGAChar>, color: bv8)
      requires buf.Length == CELLS
      ensures Valid() && this.buf == buf && this.color == color
      ensures State() == Screen(0, old(buf[..]))
    {
      this.offset := 0;
      this.color := color;
      this.buf := buf;
    }

    /** The row shift and the blank fill of a scroll. */
    method Scroll()
      requires Valid()
      modifies buf
      ensures buf[..] == Scrolled(old(buf[..]), color)
    {
      ghost var before := buf[..];
      var i := 0;
      while i < CELLS - SCREEN_WIDTH
        invariant 0 <= i <= CELLS - SCREEN_WIDTH
        invariant forall k :: 0 <= k < i ==> buf[k] == before[k + SCREEN_WIDTH]
        invariant forall k :: i <= k < CELLS ==> buf[k] == before[k]
      {
        buf[i] := buf[i + SCREEN_WIDTH];
        i := i + 1;
      }
      var j := CELLS - SCREEN_WIDTH;
      while j < CELLS
        invariant CELLS - SCREEN_WIDTH <= j <= CELLS
        invariant forall k :: 0 <= k < CELLS - SCREEN_WIDTH ==> buf[k] == before[k + SCREEN_WIDTH]
        invariant forall k :: CELLS - SCREEN_WIDTH <= k < j ==> buf[k] == Blank(color)
      {
        buf[j] := Blank(color);
        j := j + 1;
      }
      assert buf[..] == Scrolled(before, color);
    }

    method Newline()
      requires Valid()
      modifies this`offset, buf
      ensures Valid() && State() == AfterNewline(old(State()), color)
      ensures color == old(color)
    {
      offset := offset - offset % SCREEN_WIDTH;
      offset := offset + SCREEN_WIDTH;
      if offset >= CELLS {
        offset := CELLS - SCREEN_WIDTH;
        Scroll();
      }
    }

    method WriteByte(b: bv8)
      requires Valid()
      modifies this`offset, buf
      ensures Valid() && State() == AfterWrite(old(State()), color, b)
      ensures color == old(color)
    {
      if b == NEWLINE {
        Newline();
      } else {
        if offset == CELLS {
          Newline();
        }
        buf[offset] := VGAChar(b, color);
        offset := offset + 1;
      }
    }

    method WriteString(bytes: seq<bv8>)
      requires Valid()
      modifies this`offset, buf
      ensures Valid() && State() == AfterString(old(State()), color, bytes)
      ensures color == old(color)
    {
      var i := 0;
      while i < |bytes|
        invariant 0 <= i <= |bytes| && Valid()
        invariant State() == AfterString(old(State()), color, bytes[..i])
      {
        WriteByte(ShownAs(bytes[i]));
        assert bytes[..i + 1][..i] == bytes[..i];
        i := i + 1;
      }
      assert bytes[..i] == bytes;
    }
  }
}
