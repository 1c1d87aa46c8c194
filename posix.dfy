/** The operating-system calls the UART test program issues, as values: a
    trace entry per call, and the result the kernel gives each call. Nothing
    here performs I/O. */
module Posix {
  import opened Termios

  datatype Option<T> = None | Some(value: T)

  /** One call into the operating system, with the arguments that matter. */
  datatype Syscall =
    | Open(path: string)
    | TcGetAttr(fd: int)
    | TcSetAttr(fd: int, action: int, tty: Termios)
    | Write(fd: int, bytes: string)
    | Read(fd: int, size: nat)
    | Close(fd: int)

  /** The results the kernel hands back during one run: the return value of
      open, the attributes tcgetattr reports (None when it fails), the return
      values of tcsetattr, write and read. */
  datatype Kernel = Kernel(
    openResult: int,
    attributes: Option<Termios>,
    setAttrResult: int,
    writeResult: int,
    readResult: int)

  /** tcgetattr on a negative descriptor fails with EBADF whatever the
      device is; on any other descriptor it gives what the kernel reports. */
  function GetAttr(k: Kernel, fd: int): (r: Option<Termios>)
    ensures fd < 0 ==> r.None?
    ensures fd >= 0 ==> r == k.attributes
  {
    if fd < 0 then None else k.attributes
  }

  const EXIT_SUCCESS: int := 0
  const EXIT_FAILURE: int := 1
}
