/** project/io/file.hpp: a descriptor and its open flag; and the kernel's table of open descriptors. */
module Files {

  class Kernel {
    var open: set<int>

    constructor (open: set<int>)
      ensures this.open == open
    {
      this.open := open;
    }

    /** `::accept` has given out a descriptor. */
    method Opened(fd: int)
      modifies this
      ensures open == old(open) + {fd}
    {
      open := open + {fd};
    }

    /** `::close`, which fails on a descriptor that is not open. */
    method Close(fd: int) returns (ok: bool)
      modifies this
      ensures ok == (fd in old(open)) && open == if ok then old(open) - {fd} else old(open)
    {
      ok := fd in open;
      if ok {
        open := open - {fd};
      }
    }
  }

  datatype OpenFlag = READ_ONLY | WRITE_ONLY | READ_WRITE

  class File {
    const fd: int
    const oflag: OpenFlag
    var isOpen: bool

    constructor (fd: int, oflag: OpenFlag := READ_WRITE)
      ensures this.fd == fd && this.oflag == oflag && isOpen
    {
      this.fd := fd;
      this.oflag := oflag;
      isOpen := true;
    }

    predicate CanRead()
      reads this
    {
      isOpen && oflag in {READ_ONLY, READ_WRITE}
    }

    predicate CanWrite()
      reads this
    {
      isOpen && oflag in {WRITE_ONLY, READ_WRITE}
    }

    /** `close`: throws when ::close fails, and then leaves the flag alone. */
    method Close(kernel: Kernel) returns (ok: bool)
      modifies this, kernel
      ensures ok == (fd in old(kernel.open))
      ensures kernel.open == if ok then old(kernel.open) - {fd} else old(kernel.open)
      ensures isOpen == (if ok then false else old(isOpen))
    {
      ok := kernel.Close(fd);
      if ok {
        isOpen := false;
      }
    }

    /** The destructor closes the descriptor of a file that is not open, and ignores a failure. */
    method Destroy(kernel: Kernel)
      modifies this, kernel
      ensures kernel.open == if old(isOpen) then old(kernel.open) else old(kernel.open) - {fd}
      ensures isOpen == old(isOpen)
    {
      assert fd !in kernel.open ==> kernel.open - {fd} == kernel.open;
      if !isOpen {
        var _ := Close(kernel);
      }
    }
  }
}
