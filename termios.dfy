/** The POSIX terminal attribute record and the line-settings transform that
    `configureSerialPort` applies to it.

    Flag values are those of Linux (asm-generic/termbits.h); the header is not
    part of this model. Only the names the transform touches, and the few the
    8N1 and raw-mode views below read, are declared. */
module Termios {

  // c_iflag bits (IBAUD0 is the C library's private "input speed 0" bit)
  const IGNBRK: bv32 := 0x0000_0001
  const IXON: bv32   := 0x0000_0400
  const IXANY: bv32  := 0x0000_0800
  const IXOFF: bv32  := 0x0000_1000
  const IBAUD0: bv32 := 0x8000_0000

  // c_cflag bits (CBAUD holds the speed code, CBAUDEX included)
  const CBAUD: bv32   := 0x0000_100F
  const CSIZE: bv32   := 0x0000_0030
  const CS5: bv32     := 0x0000_0000
  const CS6: bv32     := 0x0000_0010
  const CS7: bv32     := 0x0000_0020
  const CS8: bv32     := 0x0000_0030
  const CSTOPB: bv32  := 0x0000_0040
  const CREAD: bv32   := 0x0000_0080
  const PARENB: bv32  := 0x0000_0100
  const PARODD: bv32  := 0x0000_0200
  const CLOCAL: bv32  := 0x0000_0800
  const CRTSCTS: bv32 := 0x8000_0000

  // c_lflag bits
  const ISIG: bv32   := 0x0000_0001
  const ICANON: bv32 := 0x0000_0002
  const ECHO: bv32   := 0x0000_0008

  // c_oflag bits
  const OPOST: bv32 := 0x0000_0001

  // c_cc slots and tcsetattr actions
  const VTIME: nat := 5
  const VMIN: nat := 6
  const TCSANOW: int := 0

  /* speed_t codes. The int that carries a code in main and speed_t are both
     32 bits wide, so a code is kept as its bit pattern: int -1 is 0xFFFF_FFFF
     and converts to speed_t unchanged. */
  const B115200: bv32 := 0x0000_1002

  /** struct termios: four flag words, the control-character slots and the
      input and output speeds. */
  datatype Termios = Termios(
    iflag: bv32,
    oflag: bv32,
    cflag: bv32,
    lflag: bv32,
    cc: map<nat, bv8>,
    ispeed: bv32,
    ospeed: bv32)

  /** The c_cflag bits the transform decides; every other bit is kept. */
  const CflagTouched: bv32 := CSIZE | CLOCAL | CREAD | PARENB | PARODD | CSTOPB | CRTSCTS

  /** The c_iflag bits the transform clears; every other bit is kept. */
  const IflagCleared: bv32 := IGNBRK | IXON | IXOFF | IXANY

  /** The values the C library's speed calls accept: those with no bit
      outside CBAUD, that is B0..B38400 and 0x1000..B4000000. */
  predicate IsSpeedCode(speed: bv32) {
    speed & !CBAUD == 0
  }

  /** cfsetispeed, as assumed of the C library (glibc on Linux): a valid
      code becomes the input speed; code 0 sets IBAUD0 in c_iflag, any other
      code clears IBAUD0 and is written into the CBAUD bits of c_cflag. Any
      other value is rejected (the call returns -1, which the caller ignores)
      and the record is left alone. */
  function CfSetISpeed(t: Termios, speed: bv32): (r: Termios)
    ensures !IsSpeedCode(speed) ==> r == t
    ensures IsSpeedCode(speed) ==> r.ispeed == speed
    ensures IsSpeedCode(speed) && speed == 0 ==> r.iflag == t.iflag | IBAUD0 && r.cflag == t.cflag
    ensures IsSpeedCode(speed) && speed != 0 ==>
      && r.iflag == t.iflag & !IBAUD0
      && r.cflag & CBAUD == speed
      && r.cflag & !CBAUD == t.cflag & !CBAUD
    ensures r.(ispeed := t.ispeed, iflag := t.iflag, cflag := t.cflag) == t
  {
    if !IsSpeedCode(speed) then t
    else if speed == 0 then t.(ispeed := 0, iflag := t.iflag | IBAUD0)
    else t.(ispeed := speed, iflag := t.iflag & !IBAUD0,
            cflag := (t.cflag & !CBAUD) | speed)
  }

  /** cfsetospeed, under the same assumption: a valid code becomes the output
      speed and is written into the CBAUD bits of c_cflag; any other value is
      rejected and the record is left alone. */
  function CfSetOSpeed(t: Termios, speed: bv32): (r: Termios)
    ensures !IsSpeedCode(speed) ==> r == t
    ensures IsSpeedCode(speed) ==>
      && r.ospeed == speed
      && r.cflag & CBAUD == speed
      && r.cflag & !CBAUD == t.cflag & !CBAUD
    ensures r.(ospeed := t.ospeed, cflag := t.cflag) == t
  {
    if IsSpeedCode(speed) then t.(ospeed := speed, cflag := (t.cflag & !CBAUD) | speed)
    else t
  }

  /** c_cflag after the transform: 8 data bits, receiver on, modem lines
      ignored, no parity, one stop bit, no RTS/CTS, every other bit kept. */
  predicate CflagConfigured(before: bv32, after: bv32) {
    && after & CSIZE == CS8
    && after & (CLOCAL | CREAD) == CLOCAL | CREAD
    && after & (PARENB | PARODD | CSTOPB | CRTSCTS) == 0
    && after & !CflagTouched == before & !CflagTouched
  }

  /** c_iflag after the transform: break and software flow control off, every
      other input bit kept. */
  predicate IflagConfigured(before: bv32, after: bv32) {
    && after & IflagCleared == 0
    && after & !IflagCleared == before & !IflagCleared
  }

  /** c_cc after the transform: MIN 0 and TIME 5, no other slot changed. */
  predicate CcConfigured(before: map<nat, bv8>, after: map<nat, bv8>) {
    && after.Keys == before.Keys + {VMIN, VTIME}
    && after[VMIN] == 0
    && after[VTIME] == 5
    && (forall k :: k in before && k != VMIN && k != VTIME ==> after[k] == before[k])
  }

  /** What the transform promises, stated field by field against the record
      it started from; c_lflag and c_oflag are cleared (no local or output
      processing) and the speeds are not touched. */
  predicate RawConfigured(before: Termios, after: Termios) {
    && CflagConfigured(before.cflag, after.cflag)
    && IflagConfigured(before.iflag, after.iflag)
    && after.lflag == 0
    && after.oflag == 0
    && CcConfigured(before.cc, after.cc)
    && after.ispeed == before.ispeed
    && after.ospeed == before.ospeed
  }

  /** The c_cflag statements of the transform taken together: the size field
      and CLOCAL|CREAD are set, then the parity, stop and RTS/CTS bits
      cleared. */
  function RawCflag(cflag: bv32): (r: bv32)
    ensures CflagConfigured(cflag, r)
  {
    ((cflag & !CSIZE) | CS8 | CLOCAL | CREAD) & !(PARENB | PARODD | CSTOPB | CRTSCTS)
  }

  /** The two c_iflag statements of the transform taken together. */
  function RawIflag(iflag: bv32): (r: bv32)
    ensures IflagConfigured(iflag, r)
  {
    iflag & !IflagCleared
  }

  /** The flag statements of configureSerialPort taken together. */
  function RawMode(t: Termios): (r: Termios)
    ensures RawConfigured(t, r)
  {
    t.(cflag := RawCflag(t.cflag),
       iflag := RawIflag(t.iflag),
       lflag := 0,
       oflag := 0,
       cc := t.cc[VMIN := 0][VTIME := 5])
  }

  /** Everything configureSerialPort does to the record it read: both speeds,
      then the flag transform. Outside the speed bits (CBAUD in c_cflag,
      IBAUD0 in c_iflag) the flag words keep the transform's promise against
      the record read; the speed bits and both speeds hold the requested
      code when it is valid, and are as read otherwise. */
  function Configured(t: Termios, speed: bv32): (r: Termios)
    ensures CflagConfigured(t.cflag & !CBAUD, r.cflag & !CBAUD)
    ensures IflagConfigured(t.iflag & !IBAUD0, r.iflag & !IBAUD0)
    ensures r.lflag == 0 && r.oflag == 0 && CcConfigured(t.cc, r.cc)
    ensures r.cflag & CBAUD == (if IsSpeedCode(speed) then speed else t.cflag & CBAUD)
    ensures r.iflag & IBAUD0 ==
      (if !IsSpeedCode(speed) then t.iflag & IBAUD0 else if speed == 0 then IBAUD0 else 0)
    ensures r.ispeed == (if IsSpeedCode(speed) then speed else t.ispeed)
    ensures r.ospeed == (if IsSpeedCode(speed) then speed else t.ospeed)
  {
    RawMode(CfSetOSpeed(CfSetISpeed(t, speed), speed))
  }

  /** RawConfigured determines its result: RawMode is the only record that
      meets it. */
  lemma RawConfiguredUnique(t: Termios, u: Termios)
    ensures RawConfigured(t, u) <==> u == RawMode(t)
  {
  }

  /** Applying the transform to its own output changes nothing. */
  lemma RawModeIdempotent(t: Termios)
    ensures RawMode(RawMode(t)) == RawMode(t)
  {
  }

  /** Re-running the whole configuration with the same rate changes nothing. */
  lemma ConfiguredIdempotent(t: Termios, speed: bv32)
    ensures Configured(Configured(t, speed), speed) == Configured(t, speed)
  {
  }

  // Views of the flag words in terms of a line configuration.

  datatype Parity = NoParity | EvenParity | OddParity

  function DataBits(cflag: bv32): nat {
    var size := cflag & CSIZE;
    if size == CS5 then 5 else if size == CS6 then 6 else if size == CS7 then 7 else 8
  }

  function ParityOf(cflag: bv32): Parity {
    if cflag & PARENB == 0 then NoParity
    else if cflag & PARODD == 0 then EvenParity
    else OddParity
  }

  function StopBits(cflag: bv32): nat {
    if cflag & CSTOPB == 0 then 1 else 2
  }

  predicate HardwareFlowControl(cflag: bv32) {
    cflag & CRTSCTS != 0
  }

  predicate SoftwareFlowControl(iflag: bv32) {
    iflag & (IXON | IXOFF | IXANY) != 0
  }

  /** A read on the line returns what is buffered, or nothing once TIME
      tenths of a second pass without a byte: non-canonical input with MIN 0
      and TIME greater than 0, as section 11.1.7 of the POSIX.1-2017 General
      Terminal Interface describes. */
  predicate TimedRawRead(t: Termios) {
    && t.lflag & (ICANON | ECHO | ISIG) == 0
    && VMIN in t.cc && t.cc[VMIN] == 0
    && VTIME in t.cc && t.cc[VTIME] > 0
  }

  /** Whatever the line was before, the transform leaves it 8N1 with no flow
      control, receiving, with no output processing, and with a read that
      returns after at most 5 tenths of a second. */
  lemma RawModeIs8N1(t: Termios)
    ensures var r := RawMode(t);
      && DataBits(r.cflag) == 8
      && ParityOf(r.cflag) == NoParity
      && StopBits(r.cflag) == 1
      && !HardwareFlowControl(r.cflag)
      && !SoftwareFlowControl(r.iflag)
      && r.cflag & CREAD != 0
      && r.oflag & OPOST == 0
      && TimedRawRead(r)
      && r.cc[VTIME] == 5
  {
  }

  /** The speed fields record the requested rate exactly when it is a speed
      code; anything else leaves the speeds as they were read. */
  lemma ConfiguredSpeed(t: Termios, speed: bv32)
    ensures IsSpeedCode(speed) ==> Configured(t, speed).ispeed == speed && Configured(t, speed).ospeed == speed
    ensures !IsSpeedCode(speed) ==> Configured(t, speed) == RawMode(t)
  {
  }
}
