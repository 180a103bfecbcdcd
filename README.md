# LCD board driver: a Dafny model

This project models the protocol layer of a driver for a 2x16 character LCD
with an HD44780-style controller, attached to a PIC microcontroller over SPI.
The driver selects the controller with an active-high chip-select line (LATB14)
and marks each byte as a command or as character data with the register-select
line (LATB13). Every operation then shifts one byte out through the SPI buffer,
waits for the exchange to complete, lets the lines settle, reads back the dummy
byte and releases chip select.

The model has three modules:

- `LcdHeader` (`lcd_header.dfy`) holds the command constants of `LCD.h`, the
  error code and the latch writes behind the control-line macros. Each command
  family is described by an encoder (entry mode, display control, function set,
  set DDRAM address) and by a decoder that reads the fields back.
- `LcdPort` (`lcd_port.dfy`) is the abstract port. The hardware registers become
  an ordered trace of events: latch writes, byte transmissions, the end of the
  busy-wait, reads of the receive buffer and the two settle delays. Replaying a
  trace gives the line levels, and `Received` gives the sequence of commands and
  data bytes that the controller accepts. `Disciplined` is the guarantee the
  driver gives for the lines: a byte goes out only while chip select is high,
  at most once per selection, and register select keeps its level from that
  byte until chip select is released.
- `LcdDriver` (`lcd_driver.dfy`) holds the class `Lcd`. Its fields are the two
  latches and the trace. The macros and driver functions of `LCD.c` become
  methods that add their events to the trace, in the order the C code performs
  them. Each method is proved to append exactly one frame per byte, to return
  the lines to idle, to keep the discipline, and to deliver exactly the intended
  commands or data.

`char` is modelled as an unsigned 8-bit byte (`bv8`). The `row + column` sum in
`LCD_SetPosition` therefore wraps modulo 256, and the model proves which inputs
that lets through.

Two points of the transfer order matter, and the model follows the code in
both:

- The usual setup rule for a controller like this one is that register select
  has its level before chip select enables the controller, and holds it until
  chip select is released. `LCD_WriteData` raises register select
  only after it asserts chip select (LCD.c:141-142). The model proves that
  register select is stable from the byte's transmission until chip select is
  released. It also proves, in `DataFrameRaisesRsWhileSelected`, that the level
  does change while chip select is high.
- Both frames wait the short interval after the busy-wait and before reading
  the receive buffer. Only the command frame also waits the long interval,
  after chip select is released.

## Model

| member | source | states |
|---|---|---|
| LcdHeader.EntryMode | LCD_Board.X/source/h/LCD.h:56-59 | an entry-mode byte has opcode bits 0000 01xx, with increment in bit 1 and display shift in bit 0 |
| LcdHeader.DisplayControl | LCD_Board.X/source/h/LCD.h:60-67 | a display-control byte has opcode bits 0000 1xxx, with display, cursor and blink in bits 2, 1 and 0 |
| LcdHeader.FunctionSet | LCD_Board.X/source/h/LCD.h:68-75 | a function-set byte has opcode bits 001x xx00, with bus width, line count and font in bits 4, 3 and 2 |
| LcdHeader.SetDdramAddress | LCD_Board.X/source/h/LCD.h:76-78 | a set-address byte has its high bit set and carries the 7-bit address in bits 6-0 |
| LcdHeader.DecodeEntryMode | LCD_Board.X/source/h/LCD.h:56-59 | a byte decodes as an entry-mode command exactly when it has the entry-mode opcode, and then re-encoding the decoded flags gives the byte back |
| LcdHeader.DecodeDisplayControl | LCD_Board.X/source/h/LCD.h:60-67 | a byte decodes as display control exactly when it has that opcode, and then re-encoding the decoded flags gives the byte back |
| LcdHeader.DecodeFunctionSet | LCD_Board.X/source/h/LCD.h:68-75 | a byte decodes as function set exactly when it has that opcode, and then re-encoding the decoded flags gives the byte back |
| LcdHeader.DecodeDdramAddress | LCD_Board.X/source/h/LCD.h:76-78 | a byte decodes as set-address exactly when its high bit is set, and then the address is a 7-bit value whose set-address command is the byte |
| LcdHeader.EntryModeRoundTrip | LCD_Board.X/source/h/LCD.h:56-59 | decoding `c` gives back the flags exactly when `c` is their encoding |
| LcdHeader.DisplayControlRoundTrip | LCD_Board.X/source/h/LCD.h:60-67 | decoding `c` gives back the flags exactly when `c` is their encoding |
| LcdHeader.FunctionSetRoundTrip | LCD_Board.X/source/h/LCD.h:68-75 | decoding `c` gives back the flags exactly when `c` is their encoding |
| LcdHeader.DdramAddressRoundTrip | LCD_Board.X/source/h/LCD.h:76-78 | decoding `c` gives back a 7-bit address exactly when `c` is that address's set-address command |
| LcdHeader.EntryModeConstants | LCD_Board.X/source/h/LCD.h:56-59 | each of the four entry-mode constants is the encoding of the flags its name states |
| LcdHeader.DisplayControlConstants | LCD_Board.X/source/h/LCD.h:60-67 | each of the eight display-control constants is the encoding of the flags its name states |
| LcdHeader.FunctionSetConstants | LCD_Board.X/source/h/LCD.h:68-75 | each of the eight function-set constants is the encoding of the bus width, line count and font its name states |
| LcdHeader.EntryModeInjective | LCD_Board.X/source/h/LCD.h:56-59 | different increment/shift combinations give different entry-mode bytes |
| LcdHeader.DisplayControlInjective | LCD_Board.X/source/h/LCD.h:60-67 | different display/cursor/blink combinations give different display-control bytes |
| LcdHeader.FunctionSetInjective | LCD_Board.X/source/h/LCD.h:68-75 | different bus width/line count/font combinations give different function-set bytes |
| LcdHeader.DisplayControlCoversAll | LCD_Board.X/source/h/LCD.h:60-67 | every display-control byte is one of the eight named constants |
| LcdHeader.FunctionSetCoversAll | LCD_Board.X/source/h/LCD.h:68-75 | every function-set byte is one of the eight named constants |
| LcdHeader.FixedCommands | LCD_Board.X/source/h/LCD.h:53-55 | return-to-line-2 is the set-address command for DDRAM 0x40; clear and home are the single-bit commands 1 and 2 |
| LcdHeader.ErrorCodeDistinct | LCD_Board.X/source/h/LCD.h:84 | the invalid-address error code is negative, so it is never the success status 0 |
| LcdPort.ControlLinePolarity | LCD_Board.X/source/h/LCD.h:29-35 | a byte reaches the controller only while LATB14 is high; it goes as data when LATB13 is high and as a command when LATB13 is low |
| LcdDriver.CommandFrameSemantics | LCD_Board.X/source/c/LCD.c:111-129 | from any level of register select, a command frame delivers exactly `Command(b)`, keeps the discipline, returns the lines to idle and waits short then long, with the long wait after release; register select stays fixed while selected when it was already low |
| LcdDriver.DataFrameSemantics | LCD_Board.X/source/c/LCD.c:137-156 | a data frame delivers exactly `Data(b)`, keeps the discipline, returns the lines to idle and waits only the short interval |
| LcdDriver.DataFrameRaisesRsWhileSelected | LCD_Board.X/source/c/LCD.c:141-142 | starting from register select low, a data frame changes register select while chip select is active |
| LcdDriver.DataFramesSemantics | LCD_Board.X/source/c/LCD.c:95-100 | a run of data frames delivers exactly the bytes as data, in order, keeps the discipline and ends idle |
| LcdDriver.CommandFramesSemantics | LCD_Board.X/source/c/LCD.c:62-66 | a run of command frames delivers exactly the bytes as commands, in order, keeps the discipline and ends idle |
| LcdDriver.InitSequenceMeaning | LCD_Board.X/source/c/LCD.c:62-66 | initialisation sends 0x01, 0x38, 0x0C, 0x06, 0x02: clear, 8-bit bus with two lines and the small font, display on with cursor and blink off, increment without shift, home |
| LcdDriver.PositionCommand | LCD_Board.X/source/c/LCD.c:171-179 | a command is issued exactly when the 8-bit address is at most 0x4F, and that command decodes to the address |
| LcdDriver.PositionAccepted | LCD_Board.X/source/c/LCD.c:171-176 | in terms of the inputs: row 0 accepts columns up to 0x4F; any other row accepts columns up to 0x0F, and also columns from 0xC0 on, because the sum wraps |
| LcdDriver.VisibleCellsAccepted | LCD_Board.X/source/c/LCD.c:168-177 | every cell with row 0 or 1 and column 0-15 is accepted, at address row*0x40+column, with command 0x80 plus that address |
| LcdDriver.VisibleCellsDistinct | LCD_Board.X/source/c/LCD.c:168-177 | distinct visible cells are positioned by distinct commands |
| LcdDriver.PositionExamples | LCD_Board.X/source/c/LCD.c:171-179 | (0,0) sends 0x80; (1,0) sends the return-to-line-2 byte 0xC0; (1,16) and (0,0x50) are rejected; (1,0xC0) wraps to address 0 |
| LcdDriver.Terminator | LCD_Board.X/source/c/LCD.c:72 | the index of the first zero byte of a string that contains one |
| LcdDriver.StringBytes | LCD_Board.X/source/c/LCD.c:72-73 | a string's contents: they contain no zero byte and are followed in the buffer by its terminator |
| LcdDriver.AsWrittenPassesTerminator | LCD_Board.X/source/c/LCD.c:78-82 | the loop as written sends the terminator after the contents, and then keeps sending whatever follows in memory to the end of the modelled memory |
| LcdDriver.AsWrittenExample | LCD_Board.X/source/c/LCD.c:78-82 | for the string "A" followed by "B", the loop as written sends 'A', 0 and 'B', while the string stands for 'A' alone |
| LcdDriver.Lcd.ActivateChipSelect | LCD_Board.X/source/h/LCD.h:34 | raises chip select, leaves register select unchanged and records the LATB14 write |
| LcdDriver.Lcd.ReleaseChipSelect | LCD_Board.X/source/h/LCD.h:35 | lowers chip select, leaves register select unchanged and records the LATB14 write |
| LcdDriver.Lcd.SetRs | LCD_Board.X/source/h/LCD.h:29 | raises register select, leaves chip select unchanged and records the LATB13 write |
| LcdDriver.Lcd.ClearRs | LCD_Board.X/source/h/LCD.h:30 | lowers register select, leaves chip select unchanged and records the LATB13 write |
| LcdDriver.Lcd.WriteCommand | LCD_Board.X/source/c/LCD.c:111-129 | returns 0, appends one command frame, leaves the port idle and disciplined, and adds exactly `Command(b)` to what the controller has received |
| LcdDriver.Lcd.WriteData | LCD_Board.X/source/c/LCD.c:137-156 | returns 0, appends one data frame, leaves the port idle and disciplined, and adds exactly `Data(b)` to what the controller has received |
| LcdDriver.Lcd.WriteBuffer | LCD_Board.X/source/c/LCD.c:93-103 | returns 0 and sends exactly the first `length` bytes of the buffer, in order, one data frame each; with length 0 it sends nothing |
| LcdDriver.Lcd.WriteStringNullTerm | LCD_Board.X/source/c/LCD.c:71-85 | returns 0 and sends exactly the bytes before the first terminator, in order, one data frame each, following the function's documented intent |
| LcdDriver.Lcd.SetPosition | LCD_Board.X/source/c/LCD.c:165-181 | when the address passes the check, returns 0 and sends the one set-address command; otherwise returns the invalid-address error and leaves the port untouched |
| LcdDriver.Lcd.InitializeLcd | LCD_Board.X/source/c/LCD.c:60-69 | returns 0 and sends exactly the five initialisation commands, in order, leaving the port idle and disciplined |

## Left out

- `LCD_ConfigSPI` (LCD.c:7-54) is not modelled. It writes SPI mode, clock and pin-remapping registers and sets the latch directions, and none of that affects the byte protocol. The code never writes LATB13 or LATB14 before the first operation, so the model assumes both latches start low.
- `LCD_TEST` (LCD.c:184-225) is not modelled. It is a fixed bring-up demonstration built from `LCD_ConfigSPI` and the modelled operations.
- Delays are events in the trace, not durations. `__delay_us` and `__delay_ms` depend on FCY and the instruction clock, which are not modelled.
- The busy-wait on `SPI2STATbits.SRXMPT` is a single `AwaitReceive` event. The model assumes that it terminates; on hardware that never completes the exchange, the C loop would hang.
- The SPI wire level (bit order, clock polarity and phase, clock rate) is not modelled. Neither is the value of the dummy byte read back into `temp`.
- The pin comments and `CONFIG_RS` / `CONFIG_CHIP_SELECT` (LCD.h:31, 36-43) are not modelled. The TRIS writes belong to the configuration step.
- Plain `char` is modelled as unsigned. If the compiler makes plain `char` signed, the comparison `DDRAM_address <= 0x4F` in LCD.c:176 also lets through addresses 0x80-0xFF. The model does not cover that reading.
- LcdDriver.Lcd.WriteBuffer: requires that the buffer holds at least `length` bytes. The C function reads whatever memory follows the buffer, and the model does not do that.
- LcdDriver.Lcd.WriteStringNullTerm: models the documented intent, which stops at the terminator, and requires the string to contain one. The loop as it is written appears only as `AsWrittenStringBytes`, within finite modelled memory; see Findings.
- The display controller's own behaviour (cursor movement, DDRAM contents, busy time) is not modelled. The model stops at the sequence of transfers the controller receives.
- The driver functions' return values are ignored inside `LCD_SetPosition` and `LCD_InitiaizeLCD`, as in the C code. They are always 0.

## Findings

| source | as written | input that shows it | evidently intended | confidence | as-written member | corrected member |
|---|---|---|---|---|---|---|
| LCD_Board.X/source/c/LCD.c:78 | `while(string)` tests the pointer, which is never null for a real string, so the loop does not stop at the terminator | memory 00 41 00 42 with the string at address 1: the loop sends 0x41, then the terminator 0x00, then 0x42, and goes on through memory | `while(*string)`: send the bytes before the first terminator (the comment at LCD.c:72) | high; not executed | LcdDriver.AsWrittenPassesTerminator | LcdDriver.Lcd.WriteStringNullTerm |
