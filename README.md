# UART terminal: serial line setup and message history, in Dafny

This project models the two pieces of logic in a small C++ serial terminal:

- **The UART test program** (`uart_test/source/main.cpp`). It validates the baud
  rate (only 115200 is accepted), opens the device and reads its `termios`
  record. It then rewrites the record to 8N1 with no hardware or software
  flow control, non-canonical input with no echo or signals, no output
  processing and a timed read (`VMIN` 0, `VTIME` 5). Input translations
  such as `ICRNL`, `INLCR`, `IGNCR`, `ISTRIP` and `BRKINT` keep the value the
  device reported. The program writes the record back, sends one
  newline-terminated message, does one read and closes the port.
- **The message-history submit rule** of both terminal front ends: the
  `TerminalUI` class (`source/TerminalUI.cpp`, `include/TerminalUI.h`) and the
  older copy on statics (`source/main.cpp`). On Return with non-empty input,
  the input goes to the end of the transmitted history and, as a local echo,
  to the end of the received history, and the input is cleared. Any other
  event changes nothing. It also models the older menu, where six dropdowns
  share four selection indices.

Modules, one per concern:

- `Termios` (`termios.dfy`): the `termios` record, with `bv32` flag words, a
  `cc` map and the two speeds. The flag names are constants with their Linux
  values. `RawMode` is the flag transform. `RawConfigured` states the
  transform's promise field by field, without computing it. The 8N1 and
  timed-read views are stated as predicates.
- `Posix` (`posix.dfy`): OS calls as values. A `Syscall` entry records each
  call issued. A `Kernel` record holds the results the OS gives back.
- `UartTest` (`uart_test.dfy`): `arg2Baudrate`, `openSerialPort`,
  `configureSerialPort`, the write, read and close wrappers, the framing, and
  `main` as `UartMain`. Each method that calls the OS returns the list of
  calls it issued. A run is described by that trace and its exit status.
- `TerminalState` (`terminal_state.dfy`): the submit rule as a function, runs
  of events and input edits, and the dropdown entry lists.
- `TerminalUi` (`terminal_ui.dfy`): the `TerminalUI` class, with its fields,
  their initial values and the submit handler.
- `UiMain` (`ui_main.dfy`): the statics of the older front end, its copy of
  the handler, and the dropdown-to-index aliasing.

Gaps in the program's error handling, kept as they are:

- `main` does not stop on the `-1` from `arg2Baudrate`. It configures the
  port anyway, and the speed calls ignore the value, so the line keeps the
  speeds it had (`Termios.ConfiguredSpeed`).
- `main` does not check the `-1` from `openSerialPort`. `tcgetattr(-1)` then
  fails, and the program calls `close(-1)` and exits with `EXIT_FAILURE`.
- `writeToSerialPort` issues one `write` and ignores a short count.
- The received history is filled only by the local echo of the submit
  handler.

## Model

| member | source | states |
|---|---|---|
| `UartTest.Arg2Baudrate` | uart_test/source/main.cpp:61-71 | the result is `B115200` exactly when the rate is 115200 and `-1` (bit pattern `0xFFFF_FFFF`) otherwise; it is a valid speed code exactly for 115200 |
| `UartTest.OpenSerialPort` | uart_test/source/main.cpp:12-24 | a non-negative descriptor from `open` is passed through; any failure becomes `-1` |
| `Termios.RawMode` | uart_test/source/main.cpp:37-47 | the transformed record meets `RawConfigured`: `CSIZE` field = `CS8`; `CLOCAL`, `CREAD` set; `PARENB`, `PARODD`, `CSTOPB`, `CRTSCTS` clear; other `c_cflag` bits kept; `IGNBRK`, `IXON`, `IXOFF`, `IXANY` clear; other `c_iflag` bits kept; `c_lflag` = `c_oflag` = 0; `cc[VMIN]` = 0, `cc[VTIME]` = 5, no other slot changed; speeds untouched |
| `Termios.RawCflag` | uart_test/source/main.cpp:37-47 | the `c_cflag` statements (37, 44-47) give 8 data bits, receiver on, modem lines ignored, no parity, one stop bit, no RTS/CTS, and all other bits unchanged |
| `Termios.RawIflag` | uart_test/source/main.cpp:38-43 | the `c_iflag` statements (38, 43) clear break-ignore and software flow control and keep every other input bit |
| `UartTest.SetLineFlags` | uart_test/source/main.cpp:37-47 | the eleven flag statements, run one at a time in source order, leave a record that meets `RawConfigured` against the one they started from |
| `Termios.CfSetISpeed` | uart_test/source/main.cpp:34 | assumed of the C library's `cfsetispeed`: a valid speed code becomes the input speed; code 0 sets `IBAUD0` in `c_iflag` and leaves `c_cflag` alone; any other valid code clears `IBAUD0` and becomes the `CBAUD` bits of `c_cflag`, the other `c_cflag` bits kept; an invalid value leaves the record unchanged; no other field ever changes |
| `Termios.CfSetOSpeed` | uart_test/source/main.cpp:35 | assumed of the C library's `cfsetospeed`: a valid speed code becomes the output speed and the `CBAUD` bits of `c_cflag`, the other `c_cflag` bits kept; an invalid value leaves the record unchanged; no other field ever changes |
| `Termios.Configured` | uart_test/source/main.cpp:34-47 | everything done to the record read: outside `CBAUD` in `c_cflag` and `IBAUD0` in `c_iflag`, the flag words meet the transform's per-field promises against the record read; `c_lflag` = `c_oflag` = 0 and `cc` as the transform sets it; for a valid code, both speeds and the `CBAUD` bits are the code and `IBAUD0` is set exactly for code 0; for an invalid value, speeds and speed bits are as read |
| `Posix.GetAttr` | uart_test/source/main.cpp:29 | assumed of `tcgetattr`: a negative descriptor always fails (EBADF); on any other descriptor the call gives what the kernel reports |
| `Termios.RawConfiguredUnique` | uart_test/source/main.cpp:37-47 | a record meets the field-by-field promise if and only if it is the transform's result |
| `Termios.RawModeIdempotent` | uart_test/source/main.cpp:37-47 | applying the transform to its own output gives the same record |
| `Termios.ConfiguredIdempotent` | uart_test/source/main.cpp:34-47 | re-running speed setting and flag transform with the same rate changes nothing |
| `Termios.RawModeIs8N1` | uart_test/source/main.cpp:37-47 | after the transform the line is 8 data bits, no parity, 1 stop bit, with no hardware or software flow control, receiver on, no output processing and a timed non-canonical read of 5 tenths of a second |
| `Termios.ConfiguredSpeed` | uart_test/source/main.cpp:34-35 | a valid speed code becomes both speeds; anything else (the `-1` of an unsupported rate) leaves the record exactly as the flag transform alone would make it |
| `UartTest.Frame` | uart_test/source/main.cpp:96 | the message is the text followed by one `'\n'`, of length `|text|` + 1 |
| `UartTest.ConfigureSerialPort` | uart_test/source/main.cpp:26-55 | if `tcgetattr` fails, it returns false and issues no `tcsetattr`; otherwise it issues one `tcsetattr(TCSANOW)` of the configured record and returns true exactly when that returns 0 |
| `UartTest.CloseSerialPort` | uart_test/source/main.cpp:57-59 | exactly one `close` of the port |
| `UartTest.WriteToSerialPort` | uart_test/source/main.cpp:73-78 | exactly one `write` of the whole buffer, whatever it returns: no retry |
| `UartTest.ReadFromSerialPort` | uart_test/source/main.cpp:80-90 | exactly one `read` of the given size, returning what `read` returned |
| `UartTest.UartMain` | uart_test/source/main.cpp:92-113 | the full call trace for each outcome; exit status 0 exactly when `tcgetattr` and `tcsetattr` both succeed, else `EXIT_FAILURE` after closing; a failed open leads to `tcgetattr(-1)`, `close(-1)` and `EXIT_FAILURE`; the port is closed once, last; the only write is the text plus `'\n'` |
| `TerminalState.Submit` | source/TerminalUI.cpp:150-158 | handled exactly on Return with non-empty input; then the input is the new last entry of both histories, with earlier entries unchanged, and the input is empty; otherwise nothing changes |
| `TerminalState.RunAppendOnly` | source/TerminalUI.cpp:152-153 | over any run of edits and events, both old histories stay prefixes of the new ones |
| `TerminalState.RunEchoes` | source/TerminalUI.cpp:152-153 | over any run, the entries added to the received history equal, in order, those added to the transmitted history |
| `TerminalState.LockstepLengths` | source/TerminalUI.cpp:152-153 | histories of equal length stay of equal length over any run |
| `TerminalState.RunAddsNonEmpty` | source/TerminalUI.cpp:151-152 | every entry a run adds to the transmitted history is non-empty |
| `TerminalState.NoDoubleSubmit` | source/TerminalUI.cpp:151-154 | a Return right after a submit is not handled |
| `TerminalState.DefaultBaudrate` | include/TerminalUI.h:41-45 | the baud list has nine rates with "9600" at index 0 and "115200" at index 5; the placeholder list has one entry |
| `TerminalUi.TerminalUI.constructor` | include/TerminalUI.h:24-48 | empty histories and input; split sizes 40 in [10, 200] and 10 in [3, 50]; the listed entry lists; every selection 0 and valid, the baud rate one being "9600" |
| `TerminalUi.TerminalUI.OnInputEvent` | source/TerminalUI.cpp:150-158 | the new histories, input and return value are those of `Submit` on the old ones; no other field changes, so the split bounds and selections stay valid |
| `UiMain.SharedSlots` | source/main.cpp:99-117 | two different dropdowns share an index exactly when they are Parity and Data bits, or Stop bits and Connect |
| `UiMain.AliasesShareEntries` | source/main.cpp:104-117 | dropdowns that share an index also show the same entry list |
| `UiMain.Globals.constructor` | source/main.cpp:55-126 | the statics at lines 55-56 (histories), 93-102 (entry lists and indices) and 126 (input): empty histories and input, the listed entry lists, every selection 0 and valid, the baud rate one being "9600" |
| `UiMain.Globals.OnInputEvent` | source/main.cpp:141-149 | the new global histories, input and return value are those of `Submit` on the old ones; no other static changes, so every dropdown index stays within its list |
| `UiMain.Globals.Choose` | source/main.cpp:104-117 | picking an entry sets the index of that dropdown and of its partner; every other dropdown keeps its index; all indices stay within their lists |

## Left out

- Real I/O. `open`, `tcgetattr`, `tcsetattr`, `write`, `read` and `close`
  are represented only by the results a `Kernel` value gives back; one value
  covers a whole run. Console output, `strerror` and `errno` are not
  modelled.
- The only thing assumed about the kernel is POSIX's EBADF rule: `tcgetattr`
  on a negative descriptor fails (`Posix.GetAttr`).
- `cfsetispeed`/`cfsetospeed` follow glibc on Linux, whose source is not part
  of this model. A value is valid when it has no bit outside `CBAUD`
  (`0x100F`), so `0x1000` counts as valid. A valid code goes into the speed
  field. `cfsetospeed` also writes it into the `CBAUD` bits of `c_cflag`.
  `cfsetispeed` also writes it there for a non-zero code and clears
  `IBAUD0`, bit 31 of `c_iflag`; for code 0 it sets `IBAUD0` instead. An
  invalid value makes the call return -1 and change nothing; `main` ignores
  that return value.
- `arg2Baudrate`'s `int` result is kept as its 32-bit pattern (`bv32`), which
  is also the `speed_t` the speed calls receive: `-1` is `0xFFFF_FFFF`.
- The flag constants take their Linux values, because the header that
  defines them is not part of this model. `EXIT_FAILURE` is 1.
- `std::stoi` and its parse failures, and the missing `argc` check, are not
  modelled. `UartMain` takes the parsed rate and the three arguments.
- The printing in `readFromSerialPort` of a possibly unterminated buffer is
  not modelled. The read result is returned and `main` ignores it.
- The timing of the read is not modelled. The `VTIME` of 5 tenths of a
  second is stated as record contents (`Termios.TimedRawRead`).
- Strings stand for byte strings: each `char` of a Dafny string is read as
  one byte of the C string, so `|text|` + 1 is the byte count `msg.size()`
  of `UartTest.Frame` only under that reading. Encodings are not modelled.
- FTXUI is not modelled: rendering, panes, the resizable splits, the
  dropdown and scroll widgets, and the screen loop. Within the model, the
  text input widget's edits are an `Edit` step that replaces the input
  text (`TerminalState.Run`). The FTXUI `Event` type is cut down to Return
  and everything else.
- The float scroll positions and their 0.1 increments are not modelled.
  They are floating point and purely visual.
- The split sizes and bounds that `main` in `source/main.cpp` keeps as local
  variables are not modelled. Only the class members are.
- `UiMain.Globals.Choose` requires that the dropdown picks one of its own
  entries. The FTXUI dropdown provides this, and it is not modelled.
- There is no background receive loop, no cancellation, no locking and no
  partial-write retry. None of these exist in the code.
