/** The driver's command/data protocol (LCD.c): single-byte command and data
    transfers, counted and null-terminated text output, cursor positioning and
    the display initialisation sequence. */
module LcdDriver {
  import opened LcdHeader
  import opened LcdPort

  // ---------------------------------------------------------------------
  // The event sequence of each transfer, and what it amounts to.

  /** One command transfer: select, register select low, shift the byte out,
      wait for the shift to finish, settle, drop the received byte, release,
      then the long settle interval for slow commands. */
  function CommandFrame(b: Byte): seq<Event> {
    [Write(ACTIVATE_CHIP_SELECT), Write(CLEAR_RS), Transmit(b), AwaitReceive,
     ShortDelay, Drain, Write(RELEASE_CHIP_SELECT), LongDelay]
  }

  /** One data transfer: as a command, but register select high, and after the
      release register select is cleared instead of the long wait. */
  function DataFrame(b: Byte): seq<Event> {
    [Write(ACTIVATE_CHIP_SELECT), Write(SET_RS), Transmit(b), AwaitReceive,
     ShortDelay, Drain, Write(RELEASE_CHIP_SELECT), Write(CLEAR_RS)]
  }

  /** The data transfers of `bs`, one after the other. */
  function DataFrames(bs: seq<Byte>): seq<Event>
    decreases |bs|
  {
    if bs == [] then [] else DataFrames(bs[..|bs| - 1]) + DataFrame(bs[|bs| - 1])
  }

  /** The command transfers of `cs`, one after the other. */
  function CommandFrames(cs: seq<Byte>): seq<Event>
    decreases |cs|
  {
    if cs == [] then [] else CommandFrames(cs[..|cs| - 1]) + CommandFrame(cs[|cs| - 1])
  }

  /** `bs` as the controller should receive it: every byte as data. */
  function AsData(bs: seq<Byte>): (r: seq<Transfer>)
    ensures |r| == |bs| && forall i | 0 <= i < |bs| :: r[i] == Data(bs[i])
    decreases |bs|
  {
    if bs == [] then [] else AsData(bs[..|bs| - 1]) + [Data(bs[|bs| - 1])]
  }

  /** `cs` as the controller should receive it: every byte as a command. */
  function AsCommands(cs: seq<Byte>): (r: seq<Transfer>)
    ensures |r| == |cs| && forall i | 0 <= i < |cs| :: r[i] == Command(cs[i])
    decreases |cs|
  {
    if cs == [] then [] else AsCommands(cs[..|cs| - 1]) + [Command(cs[|cs| - 1])]
  }

  /** From any state with no byte in flight, a command transfer hands exactly
      that byte to the controller as a command, obeys the line discipline,
      and ends with chip select released and register select low. The long
      delay comes last, after the release, and is the only long one. If
      register select was already low, it does not move while selected. */
  lemma CommandFrameSemantics(l: Lines, b: Byte)
    requires !l.busy
    ensures Received(l, CommandFrame(b)) == [Command(b)]
    ensures Disciplined(l, CommandFrame(b))
    ensures Run(l, CommandFrame(b)) == IDLE
    ensures Delays(CommandFrame(b)) == [ShortDelay, LongDelay]
    ensures var f := CommandFrame(b); f[|f| - 1] == LongDelay && !Run(l, f[..|f| - 1]).cs
    ensures !l.rs ==> RsSteadyWhileSelected(l, CommandFrame(b))
  {
    var f := CommandFrame(b);
    var t, l' := f, l;
    Unfold(l', t); l', t := Apply(l', t[0]), t[1..];
    Unfold(l', t); l', t := Apply(l', t[0]), t[1..];
    Unfold(l', t); l', t := Apply(l', t[0]), t[1..];
    Unfold(l', t); l', t := Apply(l', t[0]), t[1..];
    Unfold(l', t); l', t := Apply(l', t[0]), t[1..];
    Unfold(l', t); l', t := Apply(l', t[0]), t[1..];
    Unfold(l', t); l', t := Apply(l', t[0]), t[1..];
    Unfold(l', t); l', t := Apply(l', t[0]), t[1..];
    assert t == [];
    RunAppend(l, f[..7], [f[7]]);
    assert f[..7] + [f[7]] == f;
    Unfold(Run(l, f[..7]), [f[7]]);
  }

  /** From any state with no byte in flight, a data transfer hands exactly
      that byte to the controller as data, obeys the line discipline, and
      leaves both lines low; only the short delay occurs. */
  lemma DataFrameSemantics(l: Lines, b: Byte)
    requires !l.busy
    ensures Received(l, DataFrame(b)) == [Data(b)]
    ensures Disciplined(l, DataFrame(b))
    ensures Run(l, DataFrame(b)) == IDLE
    ensures Delays(DataFrame(b)) == [ShortDelay]
  {
    var f := DataFrame(b);
    var t, l' := f, l;
    Unfold(l', t); l', t := Apply(l', t[0]), t[1..];
    Unfold(l', t); l', t := Apply(l', t[0]), t[1..];
    Unfold(l', t); l', t := Apply(l', t[0]), t[1..];
    Unfold(l', t); l', t := Apply(l', t[0]), t[1..];
    Unfold(l', t); l', t := Apply(l', t[0]), t[1..];
    Unfold(l', t); l', t := Apply(l', t[0]), t[1..];
    Unfold(l', t); l', t := Apply(l', t[0]), t[1..];
    Unfold(l', t); l', t := Apply(l', t[0]), t[1..];
    assert t == [];
  }

  /** The two transfers are not symmetric: a data transfer raises register
      select after chip select has already been activated. */
  lemma DataFrameRaisesRsWhileSelected(l: Lines, b: Byte)
    requires !l.rs
    ensures !RsSteadyWhileSelected(l, DataFrame(b))
  {
    var f := DataFrame(b);
    Unfold(l, f);
    Unfold(Apply(l, f[0]), f[1..]);
  }

  /** A run of data transfers hands the controller exactly the bytes, in
      order, as data, keeps the discipline and returns to idle. */
  lemma {:induction false} DataFramesSemantics(l: Lines, bs: seq<Byte>)
    requires !l.busy
    ensures Received(l, DataFrames(bs)) == AsData(bs)
    ensures Disciplined(l, DataFrames(bs))
    ensures Run(l, DataFrames(bs)) == if bs == [] then l else IDLE
    decreases |bs|
  {
    if bs != [] {
      var front, last := bs[..|bs| - 1], bs[|bs| - 1];
      DataFramesSemantics(l, front);
      var mid := Run(l, DataFrames(front));
      DataFrameSemantics(mid, last);
      RunAppend(l, DataFrames(front), DataFrame(last));
    }
  }

  /** Appending data transfers to an idle, disciplined record keeps it so and
      delivers exactly the bytes as data. */
  lemma AppendDataFrames(t0: seq<Event>, bs: seq<Byte>)
    requires Run(IDLE, t0) == IDLE && Disciplined(IDLE, t0)
    ensures Run(IDLE, t0 + DataFrames(bs)) == IDLE
    ensures Disciplined(IDLE, t0 + DataFrames(bs))
    ensures Received(IDLE, t0 + DataFrames(bs)) == Received(IDLE, t0) + AsData(bs)
  {
    RunAppend(IDLE, t0, DataFrames(bs));
    DataFramesSemantics(IDLE, bs);
  }

  /** One more command transfer extends a record of the first `k` commands
      of `cs` to a record of the first `k + 1`. */
  lemma CommandFramesSnoc(t0: seq<Event>, t: seq<Event>, cs: seq<Byte>, k: nat)
    requires k < |cs| && t == t0 + CommandFrames(cs[..k])
    ensures t + CommandFrame(cs[k]) == t0 + CommandFrames(cs[..k + 1])
  {
    assert cs[..k + 1][..k] == cs[..k];
  }

  /** Likewise for a run of command transfers. */
  lemma {:induction false} CommandFramesSemantics(l: Lines, cs: seq<Byte>)
    requires !l.busy
    ensures Received(l, CommandFrames(cs)) == AsCommands(cs)
    ensures Disciplined(l, CommandFrames(cs))
    ensures Run(l, CommandFrames(cs)) == if cs == [] then l else IDLE
    decreases |cs|
  {
    if cs != [] {
      var front, last := cs[..|cs| - 1], cs[|cs| - 1];
      CommandFramesSemantics(l, front);
      var mid := Run(l, CommandFrames(front));
      CommandFrameSemantics(mid, last);
      RunAppend(l, CommandFrames(front), CommandFrame(last));
    }
  }

  /** Appending command transfers to an idle, disciplined record keeps it so
      and delivers exactly the bytes as commands. */
  lemma AppendCommandFrames(t0: seq<Event>, cs: seq<Byte>)
    requires Run(IDLE, t0) == IDLE && Disciplined(IDLE, t0)
    ensures Run(IDLE, t0 + CommandFrames(cs)) == IDLE
    ensures Disciplined(IDLE, t0 + CommandFrames(cs))
    ensures Received(IDLE, t0 + CommandFrames(cs)) == Received(IDLE, t0) + AsCommands(cs)
  {
    RunAppend(IDLE, t0, CommandFrames(cs));
    CommandFramesSemantics(IDLE, cs);
  }

  // ---------------------------------------------------------------------
  // Display initialisation.

  /** The commands the initialisation issues, in order. */
  const INIT_SEQUENCE: seq<Byte> :=
    [LCD_CMD_CLEAR_DISPLAY, LCD_CMD_FUNCTION_8B_2L_FSML, LCD_CMD_DISPLAY_DON_COFF_BOFF,
     LCD_CMD_ENTRY_MODE_INC_NO_S, LCD_CMD_RETURN_HOME]

  /** Clear, function set (8-bit bus, two lines, 5x8 font), display on with
      cursor and blink off, entry mode increment without shift, home. */
  lemma InitSequenceMeaning()
    ensures INIT_SEQUENCE == [0x01, 0x38, 0x0C, 0x06, 0x02]
    ensures DecodeFunctionSet(INIT_SEQUENCE[1]) == Some((true, true, false))
    ensures DecodeDisplayControl(INIT_SEQUENCE[2]) == Some((true, false, false))
    ensures DecodeEntryMode(INIT_SEQUENCE[3]) == Some((true, false))
  {
  }

  // ---------------------------------------------------------------------
  // Cursor positioning.

  /** The first DDRAM address of a row: any nonzero row is the second line. */
  function RowBase(row: Byte): Byte {
    if row != 0 then 0x40 else 0x00
  }

  /** The DDRAM address the driver computes for (row, column): the `char`
      sum, which as 8-bit arithmetic wraps modulo 256. */
  function DdramAddress(row: Byte, column: Byte): Byte {
    RowBase(row) + column
  }

  /** The command positioning issues, or None when it rejects the address. */
  function PositionCommand(row: Byte, column: Byte): (r: Option<Byte>)
    ensures r.Some? <==> DdramAddress(row, column) <= MAX_DDRAM_ADDRESS
    ensures r.Some? ==> DecodeDdramAddress(r.value) == Some(DdramAddress(row, column))
  {
    var address := DdramAddress(row, column);
    if address <= MAX_DDRAM_ADDRESS then Some(SetDdramAddress(address)) else None
  }

  /** Which inputs are accepted, in terms of the inputs alone: on the first
      line every column up to 0x4F; on the second line columns up to 0x0F and,
      because the sum wraps, columns from 0xC0 on. */
  lemma PositionAccepted(row: Byte, column: Byte)
    ensures PositionCommand(row, column).Some? <==>
              if row == 0 then column <= 0x4F else column <= 0x0F || 0xC0 <= column
  {
  }

  /** Every visible cell of the 2x16 display is accepted, at address
      row * 0x40 + column, and its command is 0x80 plus that address. */
  lemma VisibleCellsAccepted(row: Byte, column: Byte)
    requires row <= 1 && column <= 15
    ensures DdramAddress(row, column) as int == row as int * 0x40 + column as int
    ensures PositionCommand(row, column).Some?
    ensures PositionCommand(row, column).value as int == 0x80 + row as int * 0x40 + column as int
  {
    assert RowBase(row) as int == row as int * 0x40;
    DdramAddressRoundTrip(DdramAddress(row, column), 0);
  }

  /** Distinct visible cells are positioned by distinct commands. */
  lemma VisibleCellsDistinct(row1: Byte, column1: Byte, row2: Byte, column2: Byte)
    requires row1 <= 1 && column1 <= 15 && row2 <= 1 && column2 <= 15
    requires PositionCommand(row1, column1) == PositionCommand(row2, column2)
    ensures row1 == row2 && column1 == column2
  {
    VisibleCellsAccepted(row1, column1);
    VisibleCellsAccepted(row2, column2);
  }

  /** Concrete cases: the origin, the start of line 2 (the same byte as the
      return-to-line-2 command), the first cell past line 2, and a column that
      wraps the 8-bit sum back onto the first line. */
  lemma PositionExamples()
    ensures PositionCommand(0, 0) == Some(0x80)
    ensures PositionCommand(1, 0) == Some(LCD_CMD_RETURN_LINE2)
    ensures PositionCommand(1, 16) == None
    ensures PositionCommand(0, 0x50) == None
    ensures DdramAddress(1, 0xC0) == 0x00 && PositionCommand(1, 0xC0) == Some(0x80)
  {
  }

  // ---------------------------------------------------------------------
  // Null-terminated strings.

  /** Index of the first terminator in `s`. */
  function Terminator(s: seq<Byte>): (k: nat)
    requires 0 in s
    ensures k < |s| && s[k] == 0
    ensures forall j | 0 <= j < k :: s[j] != 0
  {
    if s[0] == 0 then 0 else 1 + Terminator(s[1..])
  }

  /** The bytes a null-terminated string stands for: those before the
      first terminator. */
  function StringBytes(s: seq<Byte>): (r: seq<Byte>)
    requires 0 in s
    ensures 0 !in r && r + [0] <= s
  {
    s[..Terminator(s)]
  }

  /** The string loop as written, for at most `fuel` iterations: its guard
      tests the pointer `p` (0 being the null pointer), not the byte it points
      to. Memory past `mem` is outside the model, so the loop is cut off
      there as well. */
  function AsWrittenStringBytes(mem: seq<Byte>, p: nat, fuel: nat): seq<Byte>
    decreases fuel
  {
    if fuel == 0 || p == 0 || p >= |mem| then []
    else [mem[p]] + AsWrittenStringBytes(mem, p + 1, fuel - 1)
  }

  lemma {:induction false} AsWrittenReadsOn(mem: seq<Byte>, p: nat, n: nat)
    requires 0 < p && p + n <= |mem|
    ensures AsWrittenStringBytes(mem, p, n) == mem[p..p + n]
    decreases n
  {
    if n > 0 {
      AsWrittenReadsOn(mem, p + 1, n - 1);
      assert mem[p..p + n] == [mem[p]] + mem[p + 1..p + n];
    }
  }

  /** For any string at a non-null address, the loop as written does not stop
      at the terminator: after the intended bytes it sends the terminator
      itself, and it goes on with whatever memory follows. */
  lemma AsWrittenPassesTerminator(mem: seq<Byte>, p: nat, k: nat)
    requires 0 < p < |mem| && 0 in mem[p..] && k == Terminator(mem[p..])
    ensures AsWrittenStringBytes(mem, p, k + 1) == StringBytes(mem[p..]) + [0]
    ensures AsWrittenStringBytes(mem, p, |mem| - p) == mem[p..]
  {
    AsWrittenReadsOn(mem, p, k + 1);
    assert mem[p..p + k + 1] == mem[p..][..k] + [0];
    AsWrittenReadsOn(mem, p, |mem| - p);
  }

  /** A concrete case: the string "A" at address 1, followed by "B". The loop
      as written sends 'A', the terminator and 'B'; the intended bytes are just
      'A'. */
  lemma AsWrittenExample()
    ensures AsWrittenStringBytes([0x00, 0x41, 0x00, 0x42], 1, 3) == [0x41, 0x00, 0x42]
    ensures StringBytes([0x41, 0x00, 0x42]) == [0x41]
  {
    assert Terminator([0x41, 0x00, 0x42]) == 1 by {
      assert [0x41, 0x00, 0x42][1..] == [0x00, 0x42];
    }
  }

  // ---------------------------------------------------------------------
  // The driver.

  /** The driver's view of the hardware: the two output latches it drives and
      the record of everything it has done to the port. */
  class Lcd {
    /** LATB13, register select. */
    var rs: bool
    /** LATB14, chip select (active high). */
    var cs: bool
    var trace: seq<Event>

    /** Between operations both lines are low, the latches agree with the
        record, and the record keeps the line discipline. */
    ghost predicate Valid()
      reads this
    {
      !rs && !cs && Run(IDLE, trace) == IDLE && Disciplined(IDLE, trace)
    }

    /** What the display controller has received so far. */
    ghost function Delivered(): seq<Transfer>
      reads this
    {
      Received(IDLE, trace)
    }

    /** The port before the first operation: both latches low, nothing done. */
    constructor ()
      ensures Valid() && trace == [] && Delivered() == []
    {
      rs, cs, trace := false, false, [];
    }

    // The header's control-line macros and the SPI buffer accesses.

    method ActivateChipSelect()
      modifies this
      ensures cs && rs == old(rs) && trace == old(trace) + [Write(ACTIVATE_CHIP_SELECT)]
    {
      cs := true;
      trace := trace + [Write(ACTIVATE_CHIP_SELECT)];
    }

    method ReleaseChipSelect()
      modifies this
      ensures !cs && rs == old(rs) && trace == old(trace) + [Write(RELEASE_CHIP_SELECT)]
    {
      cs := false;
      trace := trace + [Write(RELEASE_CHIP_SELECT)];
    }

    method SetRs()
      modifies this
      ensures rs && cs == old(cs) && trace == old(trace) + [Write(SET_RS)]
    {
      rs := true;
      trace := trace + [Write(SET_RS)];
    }

    method ClearRs()
      modifies this
      ensures !rs && cs == old(cs) && trace == old(trace) + [Write(CLEAR_RS)]
    {
      rs := false;
      trace := trace + [Write(CLEAR_RS)];
    }

    /** Record a port action that leaves both latches alone. */
    method Record(e: Event)
      requires !e.Write?
      modifies this
      ensures rs == old(rs) && cs == old(cs) && trace == old(trace) + [e]
    {
      trace := trace + [e];
    }

    // The driver operations.

    /** Send one command byte. */
    method WriteCommand(b: Byte) returns (r: int)
      requires Valid()
      modifies this
      ensures Valid() && r == 0
      ensures trace == old(trace) + CommandFrame(b)
      ensures Delivered() == old(Delivered()) + [Command(b)]
    {
      ghost var t0 := trace;
      ActivateChipSelect();
      ClearRs();
      Record(Transmit(b));
      Record(AwaitReceive);
      Record(ShortDelay);
      Record(Drain);
      ReleaseChipSelect();
      Record(LongDelay);
      assert trace == t0 + CommandFrame(b);
      RunAppend(IDLE, t0, CommandFrame(b));
      CommandFrameSemantics(IDLE, b);
      r := 0;
    }

    /** Send one byte of character data. */
    method WriteData(b: Byte) returns (r: int)
      requires Valid()
      modifies this
      ensures Valid() && r == 0
      ensures trace == old(trace) + DataFrame(b)
      ensures Delivered() == old(Delivered()) + [Data(b)]
    {
      ghost var t0 := trace;
      ActivateChipSelect();
      SetRs();
      Record(Transmit(b));
      Record(AwaitReceive);
      Record(ShortDelay);
      Record(Drain);
      ReleaseChipSelect();
      ClearRs();
      assert trace == t0 + DataFrame(b);
      RunAppend(IDLE, t0, DataFrame(b));
      DataFrameSemantics(IDLE, b);
      r := 0;
    }

    /** Send the first `length` bytes of `buffer` as data. */
    method WriteBuffer(buffer: seq<Byte>, length: Byte) returns (r: int)
      requires Valid()
      requires length as int <= |buffer|
      modifies this
      ensures Valid() && r == 0
      ensures trace == old(trace) + DataFrames(buffer[..length as int])
      ensures Delivered() == old(Delivered()) + AsData(buffer[..length as int])
    {
      ghost var t0 := trace;
      var i: nat := 0;
      var n: nat := length as int;
      var remaining: nat := n;
      while remaining != 0
        invariant Valid()
        invariant i + remaining == n
        invariant trace == t0 + DataFrames(buffer[..i])
        decreases remaining
      {
        var status := WriteData(buffer[i]);
        assert buffer[..i + 1][..i] == buffer[..i];
        i := i + 1;
        remaining := remaining - 1;
      }
      assert i == n;
      AppendDataFrames(t0, buffer[..i]);
      r := 0;
    }

    /** Send a null-terminated string as data: the bytes before the first
        terminator, scanning by the value pointed to. */
    method WriteStringNullTerm(s: seq<Byte>) returns (r: int)
      requires Valid()
      requires 0 in s
      modifies this
      ensures Valid() && r == 0
      ensures trace == old(trace) + DataFrames(StringBytes(s))
      ensures Delivered() == old(Delivered()) + AsData(StringBytes(s))
    {
      ghost var t0 := trace;
      var i: nat := 0;
      while s[i] != 0
        invariant i <= Terminator(s)
        invariant Valid()
        invariant trace == t0 + DataFrames(s[..i])
        decreases Terminator(s) - i
      {
        var status := WriteData(s[i]);
        assert s[..i + 1][..i] == s[..i];
        i := i + 1;
      }
      assert i == Terminator(s);
      AppendDataFrames(t0, s[..i]);
      r := 0;
    }

    /** Move the cursor to (row, column), or reject the address and send
        nothing. */
    method SetPosition(row: Byte, column: Byte) returns (r: int)
      requires Valid()
      modifies this
      ensures Valid()
      ensures PositionCommand(row, column).Some? ==>
                r == 0 &&
                trace == old(trace) + CommandFrame(PositionCommand(row, column).value) &&
                Delivered() == old(Delivered()) + [Command(PositionCommand(row, column).value)]
      ensures PositionCommand(row, column).None? ==>
                r == LCD_ERROR_INVALID_DDRAM_ADDRESS && trace == old(trace)
    {
      var base := RowBase(row);
      var address := base + column;
      if address <= MAX_DDRAM_ADDRESS {
        var _ := WriteCommand(LCD_CMD_SET_DDRAM_ADDRESS | address);
      } else {
        return LCD_ERROR_INVALID_DDRAM_ADDRESS;
      }
      return 0;
    }

    /** Issue the fixed initialisation commands. */
    method InitializeLcd() returns (r: int)
      requires Valid()
      modifies this
      ensures Valid() && r == 0
      ensures trace == old(trace) + CommandFrames(INIT_SEQUENCE)
      ensures Delivered() == old(Delivered()) + AsCommands(INIT_SEQUENCE)
    {
      ghost var t0 := trace;
      ghost var s := INIT_SEQUENCE;
      assert s[..0] == [];
      var status := WriteCommand(LCD_CMD_CLEAR_DISPLAY);
      CommandFramesSnoc(t0, old(trace), s, 0);
      ghost var t1 := trace;
      status := WriteCommand(LCD_CMD_FUNCTION_8B_2L_FSML);
      CommandFramesSnoc(t0, t1, s, 1);
      ghost var t2 := trace;
      status := WriteCommand(LCD_CMD_DISPLAY_DON_COFF_BOFF);
      CommandFramesSnoc(t0, t2, s, 2);
      ghost var t3 := trace;
      status := WriteCommand(LCD_CMD_ENTRY_MODE_INC_NO_S);
      CommandFramesSnoc(t0, t3, s, 3);
      ghost var t4 := trace;
      status := WriteCommand(LCD_CMD_RETURN_HOME);
      CommandFramesSnoc(t0, t4, s, 4);
      assert s[..5] == s;
      AppendCommandFrames(t0, s);
      r := 0;
    }
  }
}
