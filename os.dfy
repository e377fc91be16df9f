/** The operating system as the two handle classes see it: a table of open
    file descriptors and a set of live memory mappings. The system calls
    themselves (open, close, mmap, munmap) are not part of the library; here
    they are abstract effects on this state, with a nondeterministic choice
    between success and failure where the OS may refuse. */
module Os {

  /** The error a throwing constructor raises: the `std::system_error` of the
      source, reduced to its message (errno and the category are not modelled). */
  datatype OsError = OsError(what: string)

  /** The outcome of a constructor that may throw. */
  datatype Result<T> = Ok(value: T) | Err(error: OsError)

  /** The least integer `n >= from` that is not in `used`: POSIX's rule for the
      descriptor `open` returns, also used below to pick a fresh base address. */
  function LowestFree(used: set<int>, from: int): (n: int)
    ensures n >= from && n !in used
    ensures forall k :: from <= k < n ==> k in used
    decreases |used|
  {
    if from in used then
      var rest := used - {from};
      var n := LowestFree(rest, from + 1);
      assert forall k :: from < k < n ==> k in rest;
      assert rest <= used;
      n
    else
      from
  }

  /** The process's descriptor table. `strayCloses` counts calls of `close` on
      a descriptor that was not open: a double close, or the close of a
      descriptor nobody opened. */
  datatype FdTable = FdTable(open: set<int>, strayCloses: nat) {

    /** A successful `open`: the lowest free non-negative descriptor. */
    function Opened(): (r: (FdTable, int))
      ensures r.1 >= 0 && r.1 !in open
      ensures r.0 == FdTable(open + {r.1}, strayCloses)
    {
      var d := LowestFree(open, 0);
      (FdTable(open + {d}, strayCloses), d)
    }

    /** `close(d)`: releases `d` when it is open and is otherwise a stray close,
        which the OS reports with an error that callers here ignore. */
    function Closed(d: int): (t: FdTable)
      ensures d in open ==> t == FdTable(open - {d}, strayCloses)
      ensures d !in open ==> t == FdTable(open, strayCloses + 1)
    {
      if d in open then FdTable(open - {d}, strayCloses) else FdTable(open, strayCloses + 1)
    }
  }

  /** `nullptr` and `MAP_FAILED`, the two addresses that own no memory. */
  const NullAddr: int := 0
  const MapFailed: int := -1

  /** A mapped region, and equally the `(ptr_, length_)` pair of a mapping object. */
  datatype Region = Region(addr: int, length: nat)

  /** The live mappings of the process. `strayUnmaps` counts `munmap` calls
      whose `(addr, length)` is not exactly a live mapping: a double unmap, or
      an unmap with the wrong length. */
  datatype AddressSpace = AddressSpace(regions: set<Region>, strayUnmaps: nat) {

    /** The base addresses of the live mappings. */
    function Bases(): (b: set<int>)
      ensures forall r :: r in regions ==> r.addr in b
    {
      set r | r in regions :: r.addr
    }

    /** A successful `mmap` of `length` bytes: a base address that is neither
        null, nor `MAP_FAILED`, nor the base of a live mapping. */
    function Mapped(length: nat): (r: (AddressSpace, int))
      ensures r.1 != NullAddr && r.1 != MapFailed
      ensures forall g :: g in regions ==> g.addr != r.1
      ensures r.0 == AddressSpace(regions + {Region(r.1, length)}, strayUnmaps)
    {
      var a := LowestFree(Bases(), 1);
      (AddressSpace(regions + {Region(a, length)}, strayUnmaps), a)
    }

    /** `munmap(addr, length)`: releases the region when it is live with exactly
        that length, and is otherwise a stray unmap. */
    function Unmapped(addr: int, length: nat): (s: AddressSpace)
      ensures Region(addr, length) in regions ==> s == AddressSpace(regions - {Region(addr, length)}, strayUnmaps)
      ensures Region(addr, length) !in regions ==> s == AddressSpace(regions, strayUnmaps + 1)
    {
      var g := Region(addr, length);
      if g in regions then AddressSpace(regions - {g}, strayUnmaps) else AddressSpace(regions, strayUnmaps + 1)
    }
  }

  /** The kernel the handle classes call into. */
  class Kernel {
    var fds: FdTable
    var vm: AddressSpace

    /** A process with nothing open and nothing mapped. */
    constructor ()
      ensures fds == FdTable({}, 0) && vm == AddressSpace({}, 0)
    {
      fds := FdTable({}, 0);
      vm := AddressSpace({}, 0);
    }

    /** `open(path, flags)`: either refuses with -1 or hands out the lowest free
        descriptor. Which paths and flags the OS accepts is not modelled. */
    method Open(path: string, flags: int) returns (d: int)
      modifies this`fds
      ensures d < 0 ==> d == -1 && fds == old(fds)
      ensures d >= 0 ==> (fds, d) == old(fds).Opened()
    {
      if * {
        d := -1;
      } else {
        fds, d := fds.Opened().0, fds.Opened().1;
      }
    }

    /** `close(d)`. */
    method Close(d: int)
      modifies this`fds
      ensures fds == old(fds).Closed(d)
    {
      fds := fds.Closed(d);
    }

    /** `mmap(nullptr, length, prot, flags, fd, offset)`: either refuses with
        `MAP_FAILED` or maps `length` bytes at a fresh address. Protection,
        flags, the descriptor and the offset do not affect the model. */
    method Mmap(length: nat, prot: int, flags: int, fd: int, offset: int) returns (addr: int)
      modifies this`vm
      ensures addr == MapFailed ==> vm == old(vm)
      ensures addr != MapFailed ==> (vm, addr) == old(vm).Mapped(length)
    {
      if * {
        addr := MapFailed;
      } else {
        vm, addr := vm.Mapped(length).0, vm.Mapped(length).1;
      }
    }

    /** `munmap(addr, length)`. */
    method Munmap(addr: int, length: nat)
      modifies this`vm
      ensures vm == old(vm).Unmapped(addr, length)
    {
      vm := vm.Unmapped(addr, length);
    }
  }
}
