# Single-owner handles for POSIX descriptors and memory mappings

This project models the two resource-owning classes of the `systematic::posix`
headers and proves their ownership discipline: every descriptor or mapping
acquired through them is released at most once, always with the length it was
mapped with, a moved-from object releases nothing, and nothing leaks.

- `posix::FileDescriptor` holds one `int`. A negative value owns nothing, and
  -1 is both the member default and what a moved-from object holds. An object
  is built by adopting an integer, which cannot fail, or by `open()`, which
  throws when the result is negative. The move constructor steals the value and
  leaves -1 behind. Move assignment swaps the two values. The destructor calls
  `close` only when the value is `>= 0`.
- `posix::MemoryMapping` holds `(ptr_, length_)`, where `(nullptr, 0)` owns
  nothing. An object is built by `mmap()`, which throws on `MAP_FAILED`. Move
  construction and move assignment both work through `swap`, which exchanges
  the whole pair. The destructor calls `munmap(ptr_, length_)` only when
  `ptr_` is not null.

Files:

- `os.dfy` (module `Os`) is the operating system as the classes see it. It
  holds a descriptor table (`FdTable`: the open descriptors, plus a count of
  stray closes) and an address space (`AddressSpace`: the live
  `(address, length)` regions, plus a count of stray unmaps). A stray release
  is a double release, or a release of something that is not live (for a
  mapping, this includes one with the wrong length). It also has a `Kernel`
  class whose `Open` and `Mmap` choose nondeterministically between failure
  (-1, `MAP_FAILED`) and a fresh resource. A fresh descriptor is the lowest
  free one. A fresh address is the lowest positive integer that is not the
  base of a live mapping, so it is neither null nor `MAP_FAILED`.
- `file_descriptor.dfy` (module `PosixFileDescriptor`) and
  `memory_mapping.dfy` (module `PosixMemoryMapping`) are built the same way:
  - a value model of the discipline: a `State` (the kernel table plus the
    value held by each live object, keyed by any type), the single-owner
    invariant `Exclusive`, one `Step` per operation, and `Run` over a
    sequence of operations. The lemmas `StepPreserves` and `RunPreserves`
    prove that the invariant is kept, that no release goes astray and that
    nothing leaks;
  - the class itself. Every operation that changes state takes the set of
    live objects as a ghost parameter. It also takes the kernel: as a ghost
    parameter in `Adopt`, `MoveFrom`, `MoveAssign` and `Swap`, which do not
    call into it, and as an ordinary one in `Open`, `Map` and `Destroy`, which
    do. `Get`, `ConstView` and `MutableView` take neither. Each changing
    operation is proved to change that set's `Snapshot` by exactly the
    matching `Step`, and its `ensures` also give the fields directly;
  - caller methods (`MoveAssignDestroy`, `DestroyAll`, `OpenSecond`, `OpenTwo`;
    `SwapMoveDestroy`, `DestroyAll`, `MapSecond`, `MapTwo`). These show what a client can
    prove from those contracts alone. They acquire resources, move them,
    swap them, move-assign them and destroy everything, and come back to the
    starting table with no stray release.

The C++ destructor becomes an explicit `Destroy` call, made once per object.
The set of live objects passed to each operation stands in for the
language's guarantee that a destroyed object is not used again.

## Model

| member | source | states |
|---|---|---|
| `PosixFileDescriptor.FileDescriptor.Adopt` | include/systematic/posix/FileDescriptor.hpp:26-29 | stores the given integer unchanged, negative or not, and cannot fail; equals the `Adopted` step on the live objects |
| `PosixFileDescriptor.FileDescriptor.Open` | include/systematic/posix/FileDescriptor.hpp:40-45 | a negative `open` result gives the error "open() failed" and leaves kernel and objects unchanged; otherwise a fresh object holds a descriptor `>= 0`, and the state is the `Opened` step |
| `PosixFileDescriptor.FileDescriptor.MoveFrom` | include/systematic/posix/FileDescriptor.hpp:57-61 | the new object holds the source's former descriptor and the source holds -1 |
| `PosixFileDescriptor.FileDescriptor.MoveAssign` | include/systematic/posix/FileDescriptor.hpp:84-88 | the two descriptors are exchanged and the kernel is not touched, so nothing is closed and the destination's old descriptor is now the source's; returns the destination (`*this`) |
| `PosixFileDescriptor.FileDescriptor.Get` | include/systematic/posix/FileDescriptor.hpp:96-99 | returns the stored descriptor and changes nothing |
| `PosixFileDescriptor.FileDescriptor.Destroy` | include/systematic/posix/FileDescriptor.hpp:68-72 | calls `close` exactly when the descriptor is `>= 0`, and otherwise leaves the table as it was |
| `PosixFileDescriptor.StepPreserves` | include/systematic/posix/FileDescriptor.hpp:51-88 | every operation (adopt, open, move, move-assign, destroy; copying is deleted) keeps owned descriptors open and pairwise distinct. No close goes astray. Only adoption changes the set of open descriptors that no object owns, and it can only shrink that set |
| `PosixFileDescriptor.RunPreserves` | include/systematic/posix/FileDescriptor.hpp:51-103 | over any sequence of operations that hands the adopting constructor only descriptors the caller owns, the invariant holds, no descriptor is closed twice or while closed, and once every object is destroyed no descriptor opened through the class is still open |
| `PosixFileDescriptor.MovedFromClosesNothing` | include/systematic/posix/FileDescriptor.hpp:57-72 | moving and then destroying the source leaves the descriptor table as it was, with the destination holding the source's old value |
| `PosixFileDescriptor.DestroyClosesOwn` | include/systematic/posix/FileDescriptor.hpp:68-72 | destroying an owner closes exactly its own descriptor and leaves every other object's value alone |
| `PosixFileDescriptor.OpenTwo` | include/systematic/posix/FileDescriptor.hpp:40-88 | a client that opens, moves, move-assigns and destroys ends with the descriptor table it started with and no stray close |
| `PosixMemoryMapping.MemoryMapping.constructor` | include/systematic/posix/MemoryMapping.hpp:113-114 | the member defaults are `(nullptr, 0)` |
| `PosixMemoryMapping.MemoryMapping.Map` | include/systematic/posix/MemoryMapping.hpp:30-36 | `MAP_FAILED` gives the error "mmap() failed" and leaves kernel and objects unchanged, so no object exists that could be unmapped; otherwise a fresh object records the returned non-null address with exactly the requested length |
| `PosixMemoryMapping.MemoryMapping.MoveFrom` | include/systematic/posix/MemoryMapping.hpp:48-51 | the new object starts at the defaults and swaps, so it holds the source's former pair and the source holds `(nullptr, 0)` |
| `PosixMemoryMapping.MemoryMapping.MoveAssign` | include/systematic/posix/MemoryMapping.hpp:73-77 | a swap: the pairs are exchanged and the kernel is not touched, so nothing is unmapped and the destination's old region passes to the source; returns the destination (`*this`) |
| `PosixMemoryMapping.MemoryMapping.Swap` | include/systematic/posix/MemoryMapping.hpp:83-87 | exchanges `ptr_` and `length_` together between the two objects |
| `PosixMemoryMapping.SwapTwice` | include/systematic/posix/MemoryMapping.hpp:83-87 | swapping twice restores both objects |
| `PosixMemoryMapping.SwapKeepsOwned` | include/systematic/posix/MemoryMapping.hpp:83-87 | a swap between live objects changes neither the set of owned pairs nor the invariant |
| `PosixMemoryMapping.MemoryMapping.ConstView` | include/systematic/posix/MemoryMapping.hpp:95-98 | returns the stored address and changes nothing |
| `PosixMemoryMapping.MemoryMapping.MutableView` | include/systematic/posix/MemoryMapping.hpp:106-109 | returns the stored address and changes nothing |
| `PosixMemoryMapping.MemoryMapping.Destroy` | include/systematic/posix/MemoryMapping.hpp:57-61 | calls `munmap(ptr_, length_)` exactly when `ptr_` is not null, and otherwise leaves the address space as it was |
| `PosixMemoryMapping.StepPreserves` | include/systematic/posix/MemoryMapping.hpp:42-87 | every operation (map, move, move-assign, swap, destroy; copying is deleted) keeps every owned pair exactly a live mapping with distinct addresses. No unmap goes astray, and no mapping is leaked |
| `PosixMemoryMapping.RunPreserves` | include/systematic/posix/MemoryMapping.hpp:42-114 | under any sequence of operations, every mapping is unmapped at most once and always with its original length, and once every object is destroyed no mapping made through the class is still live |
| `PosixMemoryMapping.MovedFromUnmapsNothing` | include/systematic/posix/MemoryMapping.hpp:48-61 | after a move the source is `(nullptr, 0)`, and destroying it leaves the address space as it was |
| `PosixMemoryMapping.DestroyUnmapsOwn` | include/systematic/posix/MemoryMapping.hpp:57-61 | destroying an owner unmaps exactly its own region, with its own length |
| `PosixMemoryMapping.MapTwo` | include/systematic/posix/MemoryMapping.hpp:30-87 | a client that maps, swaps, moves, move-assigns and destroys ends with the address space it started with and no stray unmap |

## Left out

- The system calls (`open`, `close`, `mmap`, `munmap`) are abstract effects on
  the kernel state in `os.dfy`. Each one either fails or returns a fresh
  resource. `errno`, `std::system_category`, open flags, protection and
  sharing bits, offsets, page alignment and what the OS accepts (a zero
  length, say) are not modelled. The error carries only the message.
- A failed `open` is modelled as returning -1. The class tests for any negative
  value, and the model keeps that test.
- In the model, `mmap` never returns address 0. If it did, the destructor's
  null test would skip the `munmap` and the mapping would leak.
- The model has a public empty constructor, `PosixMemoryMapping.MemoryMapping.constructor`.
  C++ has none; it stands for the default member initialisers `(nullptr, 0)`.
  In C++ only the move constructor starts from them; the mapping
  constructor's initialiser list sets both members directly. The model's
  `Map` builds its object from the empty constructor and then sets both
  fields, which ends in the same state.
- The descriptor is an `int` and the length a `size_t`. The classes do no
  arithmetic on either, so the model uses unbounded integers.
- The memory behind a mapping (reads and writes through the two pointer views)
  is not modelled.
- That each object is destroyed exactly once, and exception unwinding, are
  C++ guarantees. They are stood in for by the explicit `Destroy` and by the
  ghost set of live objects.
- Thread safety of concurrent use is not modelled.
- `include/systematic/pthread/pthread.hpp` is not part of this model. `setName`
  forwards to `pthread_setname_np` and holds no state.
- `include/systematic/legacy/FileDescriptor.hpp` and
  `include/systematic/legacy/MemoryMapping.hpp` are not part of this model.
  They are superseded versions with no move, swap or sentinel. The legacy
  mapping never sets `length_`, so nothing sound can be said about its unmap.
- Move assignment releases nothing during the call. It hands the
  destination's old resource to the source, which releases it when it is
  destroyed.
- The error carries the message "open() failed" or "mmap() failed".
