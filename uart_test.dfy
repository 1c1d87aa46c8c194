/** The command-line UART test program: parse the rate, open the device, set
    the line to 8N1, non-canonical, with no echo, signals or output
    processing, send one newline-terminated message, do one timed read,
    close. Each step that calls the operating system returns the
    calls it issued, so a run is described by its trace. */
module UartTest {
  import opened Termios
  import opened Posix

  /** Size of the receive buffer main reads into. */
  const ReadBufferSize: nat := 100

  /** The int -1 that arg2Baudrate returns for a refused rate, as its 32-bit
      pattern. */
  const Unsupported: bv32 := 0xFFFF_FFFF

  /** arg2Baudrate after the integer is parsed: 115200 is the one accepted
      rate; every other rate gives -1, which is not a speed code. The
      result is the 32-bit pattern of the returned int. */
  function Arg2Baudrate(rate: int): (code: bv32)
    ensures code == B115200 <==> rate == 115200
    ensures code != B115200 ==> code == Unsupported
    ensures IsSpeedCode(code) <==> rate == 115200
  {
    match rate
    case 115200 => B115200
    case _ => Unsupported
  }

  /** openSerialPort's result rule given what open returned (result): a descriptor is
      passed through, any failure becomes -1. */
  function OpenSerialPort(result: int): (fd: int)
    ensures fd >= 0 <==> result >= 0
    ensures fd >= 0 ==> fd == result
    ensures fd < 0 ==> fd == -1
  {
    if result < 0 then -1 else result
  }

  /** The outbound message: the text followed by a single line feed. */
  function Frame(text: string): (msg: string)
    ensures |msg| == |text| + 1
    ensures msg[..|text|] == text
    ensures msg[|text|] == '\n'
  {
    text + "\n"
  }

  /** The flag statements of configureSerialPort, one at a time, on the
      record whose speeds were just set. */
  method SetLineFlags(read: Termios) returns (tty: Termios)
    ensures RawConfigured(read, tty)
  {
    tty := read;
    tty := tty.(cflag := (tty.cflag & !CSIZE) | CS8);
    tty := tty.(iflag := tty.iflag & !IGNBRK);
    tty := tty.(lflag := 0);
    tty := tty.(oflag := 0);
    tty := tty.(cc := tty.cc[VMIN := 0]);
    tty := tty.(cc := tty.cc[VTIME := 5]);
    tty := tty.(iflag := tty.iflag & !(IXON | IXOFF | IXANY));
    tty := tty.(cflag := tty.cflag | (CLOCAL | CREAD));
    tty := tty.(cflag := tty.cflag & !(PARENB | PARODD));
    tty := tty.(cflag := tty.cflag & !CSTOPB);
    tty := tty.(cflag := tty.cflag & !CRTSCTS);
  }

  /** configureSerialPort: read the attributes, give up if that fails; else
      set both speeds, rewrite the flag words one statement at a time, and
      write the record back, succeeding exactly when tcsetattr returns 0. */
  method ConfigureSerialPort(port: int, baudrate: bv32, k: Kernel) returns (ok: bool, calls: seq<Syscall>)
    ensures GetAttr(k, port).None? ==> !ok && calls == [TcGetAttr(port)]
    ensures GetAttr(k, port).Some? ==>
      && calls == [TcGetAttr(port), TcSetAttr(port, TCSANOW, Configured(GetAttr(k, port).value, baudrate))]
      && (ok <==> k.setAttrResult == 0)
    ensures ok ==> |calls| == 2 && calls[1].TcSetAttr? && k.setAttrResult == 0
  {
    calls := [TcGetAttr(port)];
    var got := GetAttr(k, port);
    if got.None? {
      return false, calls;
    }
    var tty := got.value;
    tty := CfSetISpeed(tty, baudrate);
    tty := CfSetOSpeed(tty, baudrate);
    ghost var read := tty;
    tty := SetLineFlags(tty);
    RawConfiguredUnique(read, tty);
    calls := calls + [TcSetAttr(port, TCSANOW, tty)];
    ok := k.setAttrResult == 0;
  }

  /** closeSerialPort: one close, its result ignored. */
  method CloseSerialPort(port: int) returns (calls: seq<Syscall>)
    ensures calls == [Close(port)]
  {
    calls := [Close(port)];
  }

  /** writeToSerialPort: one write of the whole buffer. A failed write is
      reported and a short one ignored; neither is retried. */
  method WriteToSerialPort(port: int, buffer: string, k: Kernel) returns (calls: seq<Syscall>)
    ensures |calls| == 1 && calls[0] == Write(port, buffer)
  {
    // whatever k.writeResult is, a negative value is only reported
    calls := [Write(port, buffer)];
  }

  /** readFromSerialPort: one read of up to size bytes; returns what read
      returned. */
  method ReadFromSerialPort(port: int, size: nat, k: Kernel) returns (n: int, calls: seq<Syscall>)
    ensures n == k.readResult
    ensures calls == [Read(port, size)]
  {
    n := k.readResult;
    calls := [Read(port, size)];
  }

  /** main, given the device path, the parsed rate and the message text. The
      results of arg2Baudrate and openSerialPort are not checked: a refused
      rate still reaches configureSerialPort (whose speed calls then ignore
      it), and a failed open passes -1 on, where tcgetattr fails. A failed
      configuration closes the port and exits with EXIT_FAILURE; otherwise
      the framed message is written once, one read is done, the port is
      closed and the exit status is 0. */
  method UartMain(portArg: string, rateArg: int, textArg: string, k: Kernel)
      returns (status: int, calls: seq<Syscall>)
    ensures var fd := OpenSerialPort(k.openResult);
      var got := GetAttr(k, fd);
      var configured := got.Some? && k.setAttrResult == 0;
      && (status == EXIT_SUCCESS <==> configured)
      && (status == EXIT_SUCCESS || status == EXIT_FAILURE)
      && (got.None? ==> calls == [Open(portArg), TcGetAttr(fd), Close(fd)])
      && (got.Some? ==>
            var sent := TcSetAttr(fd, TCSANOW, Configured(got.value, Arg2Baudrate(rateArg)));
            if configured then
              calls == [Open(portArg), TcGetAttr(fd), sent, Write(fd, Frame(textArg)), Read(fd, ReadBufferSize), Close(fd)]
            else
              calls == [Open(portArg), TcGetAttr(fd), sent, Close(fd)])
    ensures k.openResult < 0 ==> status == EXIT_FAILURE && calls == [Open(portArg), TcGetAttr(-1), Close(-1)]
    ensures |calls| >= 3 && calls[0] == Open(portArg) && calls[|calls| - 1] == Close(OpenSerialPort(k.openResult))
    ensures forall i :: 0 <= i < |calls| - 1 ==> !calls[i].Close?
    ensures forall i :: 0 <= i < |calls| && calls[i].Write? ==>
      calls[i].bytes == textArg + "\n" && |calls[i].bytes| == |textArg| + 1
  {
    var baudrate := Arg2Baudrate(rateArg);
    var msg := Frame(textArg);

    calls := [Open(portArg)];
    var port := OpenSerialPort(k.openResult);

    var ok, c := ConfigureSerialPort(port, baudrate, k);
    calls := calls + c;
    if !ok {
      c := CloseSerialPort(port);
      calls := calls + c;
      return EXIT_FAILURE, calls;
    }

    c := WriteToSerialPort(port, msg, k);
    calls := calls + c;
    var n;
    n, c := ReadFromSerialPort(port, ReadBufferSize, k);
    calls := calls + c;
    c := CloseSerialPort(port);
    calls := calls + c;
    return EXIT_SUCCESS, calls;
  }
}
