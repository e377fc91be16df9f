/** `systematic::posix::MemoryMapping`: a move-only owner of one memory
    mapping. The object holds the pair `(ptr_, length_)`, modelled as a
    `Region`; a null address owns nothing, and `(nullptr, 0)` is both the
    member default and what a moved-from object holds.

    As for file descriptors, the module first states the ownership discipline
    on values (the pair held by every live object, keyed by any type `K`,
    together with the live mappings of the process) and then gives the class,
    each of whose operations is proved to be one `Step` of that model. */
module PosixMemoryMapping {
  import opened Os

  /** The member defaults `ptr_ = nullptr`, `length_ = 0`. */
  const Defaults: Region := Region(NullAddr, 0)

  /** The destructor's guard: a pair the object will unmap. */
  predicate Owns(r: Region)
  {
    r.addr != NullAddr
  }

  /** One operation of the class. Copy construction and copy assignment are
      deleted in the source, so there are no events for them. */
  datatype Event<K> =
    | Mapped(obj: K, length: nat, succeeds: bool)
    | MoveConstructed(dst: K, src: K)
    | MoveAssigned(dst: K, src: K)
    | Swapped(a: K, b: K)
    | Destroyed(obj: K)

  /** The live mappings of the process and the pair held by each live object. */
  datatype State<K> = State(space: AddressSpace, held: map<K, Region>)

  /** `swap`: the two objects exchange their whole pairs, so an address never
      travels without its length. */
  function Swap<K>(held: map<K, Region>, a: K, b: K): (h: map<K, Region>)
    requires a in held && b in held
    ensures h.Keys == held.Keys
    ensures h[a] == held[b] && h[b] == held[a]
    ensures forall o :: o in held && o != a && o != b ==> h[o] == held[o]
  {
    held[a := held[b]][b := held[a]]
  }

  /** Swapping twice restores both objects. */
  lemma SwapTwice<K>(held: map<K, Region>, a: K, b: K)
    requires a in held && b in held
    ensures Swap(Swap(held, a, b), a, b) == held
  {
  }

  /** The pairs some live object owns. */
  function Owned<K>(held: map<K, Region>): (s: set<Region>)
    ensures forall o :: o in held && Owns(held[o]) ==> held[o] in s
    ensures forall r :: r in s ==> Owns(r)
  {
    set o | o in held && Owns(held[o]) :: held[o]
  }

  /** Mappings that are live but that no object owns: a step that adds to them
      has leaked a mapping. */
  function Unowned<K>(s: State<K>): set<Region>
  {
    s.space.regions - Owned(s.held)
  }

  /** The single-owner invariant: every owned pair is exactly a live mapping,
      with the length it was mapped with, and no two live objects own the same
      address. */
  ghost predicate Exclusive<K>(s: State<K>)
  {
    && (forall o :: o in s.held && Owns(s.held[o]) ==> s.held[o] in s.space.regions)
    && (forall o, p :: o in s.held && p in s.held && o != p && Owns(s.held[o]) ==> s.held[o].addr != s.held[p].addr)
  }

  /** The effect of one operation. An event that no C++ program can express (an
      object constructed twice, or used after it was destroyed) leaves the state
      as it is. */
  function Step<K>(s: State<K>, e: Event<K>): State<K>
  {
    match e
    case Mapped(o, length, ok) =>
      if o in s.held || !ok then s
      else
        var (space, addr) := s.space.Mapped(length);
        State(space, s.held[o := Region(addr, length)])
    case MoveConstructed(dst, src) =>
      if dst in s.held || src !in s.held then s
      else State(s.space, Swap(s.held[dst := Defaults], dst, src))
    case MoveAssigned(dst, src) =>
      if dst !in s.held || src !in s.held then s
      else State(s.space, Swap(s.held, dst, src))
    case Swapped(a, b) =>
      if a !in s.held || b !in s.held then s
      else State(s.space, Swap(s.held, a, b))
    case Destroyed(o) =>
      if o !in s.held then s
      else
        var r := s.held[o];
        State(if Owns(r) then s.space.Unmapped(r.addr, r.length) else s.space, s.held - {o})
  }

  /** A sequence of operations, applied in order. */
  function Run<K>(s: State<K>, es: seq<Event<K>>): State<K>
    decreases |es|
  {
    if es == [] then s else Run(Step(s, es[0]), es[1..])
  }

  /** An exchange of pairs between live objects changes neither which pairs are
      owned nor the invariant. */
  lemma SwapKeepsOwned<K>(s: State<K>, a: K, b: K)
    requires Exclusive(s) && a in s.held && b in s.held
    ensures Owned(Swap(s.held, a, b)) == Owned(s.held)
    ensures Exclusive(State(s.space, Swap(s.held, a, b)))
  {
  }

  /** Every operation keeps the single-owner invariant, never unmaps anything
      but a live mapping with its original length, and never leaks a mapping. */
  lemma StepPreserves<K>(s: State<K>, e: Event<K>)
    requires Exclusive(s)
    ensures Exclusive(Step(s, e))
    ensures Step(s, e).space.strayUnmaps == s.space.strayUnmaps
    ensures Unowned(Step(s, e)) == Unowned(s)
  {
    var t := Step(s, e);
    match e
    case Mapped(o, length, ok) =>
      if o !in s.held && ok {
        var g := Region(s.space.Mapped(length).1, length);
        forall x | x in Owned(t.held) ensures x in Owned(s.held) || x == g {
          var p :| p in t.held && Owns(t.held[p]) && t.held[p] == x;
          if p != o { assert p in s.held; }
        }
        forall x | x in Owned(s.held) ensures x in Owned(t.held) {
          var p :| p in s.held && Owns(s.held[p]) && s.held[p] == x;
          assert t.held[p] == x;
        }
        assert o in t.held && t.held[o] == g && Owns(g);
        assert g in Owned(t.held) && g !in Owned(s.held);
      }
    case MoveConstructed(dst, src) =>
      if dst !in s.held && src in s.held {
        var s' := State(s.space, s.held[dst := Defaults]);
        forall x | x in Owned(s'.held) ensures x in Owned(s.held) {
          var p :| p in s'.held && Owns(s'.held[p]) && s'.held[p] == x;
          assert p != dst && s.held[p] == x;
        }
        forall x | x in Owned(s.held) ensures x in Owned(s'.held) {
          var p :| p in s.held && Owns(s.held[p]) && s.held[p] == x;
          assert s'.held[p] == x;
        }
        SwapKeepsOwned(s', dst, src);
      }
    case MoveAssigned(dst, src) =>
      if dst in s.held && src in s.held {
        SwapKeepsOwned(s, dst, src);
      }
    case Swapped(a, b) =>
      if a in s.held && b in s.held {
        SwapKeepsOwned(s, a, b);
      }
    case Destroyed(o) =>
      if o in s.held {
        var r := s.held[o];
        forall x | x in Owned(t.held) ensures x in Owned(s.held) && (Owns(r) ==> x != r) {
          var p :| p in t.held && Owns(t.held[p]) && t.held[p] == x;
          assert p in s.held && p != o;
        }
        forall x | x in Owned(s.held) && x != r ensures x in Owned(t.held) {
          var p :| p in s.held && Owns(s.held[p]) && s.held[p] == x;
          assert p != o && t.held[p] == x;
        }
      }
  }

  /** Under any sequence of map, move, swap and destroy, the invariant holds
      throughout, every mapping is unmapped at most once and always with its
      original length, and nothing leaks: once every object is destroyed, the
      live mappings are those that were live and unowned at the start. */
  lemma {:induction false} RunPreserves<K>(s: State<K>, es: seq<Event<K>>)
    requires Exclusive(s)
    ensures Exclusive(Run(s, es))
    ensures Run(s, es).space.strayUnmaps == s.space.strayUnmaps
    ensures Unowned(Run(s, es)) == Unowned(s)
    ensures Run(s, es).held == map[] ==> Run(s, es).space.regions == Unowned(s)
    decreases |es|
  {
    if es != [] {
      StepPreserves(s, es[0]);
      RunPreserves(Step(s, es[0]), es[1..]);
    }
  }

  /** A moved-from object unmaps nothing: moving and then destroying the source
      leaves the live mappings as they were, and the destination holds the
      source's former pair. */
  lemma MovedFromUnmapsNothing<K>(s: State<K>, dst: K, src: K)
    requires dst !in s.held && src in s.held && dst != src
    ensures Step(s, MoveConstructed(dst, src)).held[src] == Defaults
    ensures Step(Step(s, MoveConstructed(dst, src)), Destroyed(src)).space == s.space
    ensures Step(Step(s, MoveConstructed(dst, src)), Destroyed(src)).held == (s.held - {src})[dst := s.held[src]]
  {
  }

  /** Destroying an owner unmaps exactly its own mapping, with its own length. */
  lemma DestroyUnmapsOwn<K>(s: State<K>, o: K)
    requires Exclusive(s) && o in s.held && Owns(s.held[o])
    ensures Step(s, Destroyed(o)).space == AddressSpace(s.space.regions - {s.held[o]}, s.space.strayUnmaps)
  {
  }

  /** The state of the live objects `objs` and of the kernel `k`. */
  ghost function Snapshot(k: Kernel, objs: set<MemoryMapping>): State<MemoryMapping>
    reads k, objs
  {
    State(k.vm, map m | m in objs :: Region(m.ptr, m.length))
  }

  class MemoryMapping {
    var ptr: int
    var length: nat

    /** An object in the state of the member defaults `(nullptr, 0)`, which is
        where the move constructor's object starts and where a moved-from object
        ends; C++ offers no public constructor for it. */
    constructor ()
      ensures ptr == NullAddr && length == 0
    {
      ptr := NullAddr;
      length := 0;
    }

    /** Maps `length` bytes of `fd`; fails with "mmap() failed", leaving
        everything as it was, when `mmap` returns `MAP_FAILED`. On success the
        object records the returned address with exactly `length`. */
    static method Map(k: Kernel, length: nat, prot: int, flags: int, fd: int, offset: int,
                      ghost objs: set<MemoryMapping>)
      returns (r: Result<MemoryMapping>)
      modifies k`vm
      ensures r.Err? ==> r.error == OsError("mmap() failed")
      ensures r.Err? ==> Snapshot(k, objs) == old(Snapshot(k, objs))
      ensures r.Ok? ==> fresh(r.value) && Owns(Region(r.value.ptr, r.value.length)) && r.value.length == length
      ensures r.Ok? ==> Snapshot(k, objs + {r.value}) == Step(old(Snapshot(k, objs)), Mapped(r.value, length, true))
    {
      var addr := k.Mmap(length, prot, flags, fd, offset);
      if addr == MapFailed {
        r := Err(OsError("mmap() failed"));
      } else {
        var m := new MemoryMapping();
        m.ptr, m.length := addr, length;
        r := Ok(m);
      }
    }

    /** The move constructor: starts from the defaults and swaps with `other`. */
    constructor MoveFrom(other: MemoryMapping, ghost k: Kernel, ghost objs: set<MemoryMapping>)
      requires other in objs
      modifies other
      ensures ptr == old(other.ptr) && length == old(other.length)
      ensures other.ptr == NullAddr && other.length == 0
      ensures Snapshot(k, objs + {this}) == Step(old(Snapshot(k, objs)), MoveConstructed(this, other))
    {
      ptr := NullAddr;
      length := 0;
      new;
      Swap(other, k, objs + {this});
    }

    /** Move assignment: a swap, so nothing is unmapped and this object's old
        mapping passes to `other`; returns this object. */
    method MoveAssign(other: MemoryMapping, ghost k: Kernel, ghost objs: set<MemoryMapping>)
      returns (r: MemoryMapping)
      requires this in objs && other in objs
      modifies this, other
      ensures r == this
      ensures ptr == old(other.ptr) && length == old(other.length)
      ensures other.ptr == old(ptr) && other.length == old(length)
      ensures Snapshot(k, objs) == Step(old(Snapshot(k, objs)), MoveAssigned(this, other))
    {
      Swap(other, k, objs);
      r := this;
    }

    /** `swap`: exchanges `ptr_` and `length_` together. */
    method Swap(other: MemoryMapping, ghost k: Kernel, ghost objs: set<MemoryMapping>)
      requires this in objs && other in objs
      modifies this, other
      ensures ptr == old(other.ptr) && length == old(other.length)
      ensures other.ptr == old(ptr) && other.length == old(length)
      ensures Snapshot(k, objs) == Step(old(Snapshot(k, objs)), Swapped(this, other))
    {
      var p := ptr;
      ptr := other.ptr;
      other.ptr := p;
      var n := length;
      length := other.length;
      other.length := n;
    }

    /** `operator void const *`: the stored address; changes nothing. */
    method ConstView() returns (p: int)
      ensures p == ptr
    {
      p := ptr;
    }

    /** `operator void *`: the stored address; changes nothing. */
    method MutableView() returns (p: int)
      ensures p == ptr
    {
      p := ptr;
    }

    /** The destructor: unmaps `(ptr_, length_)` exactly when `ptr_` is not null. */
    method Destroy(k: Kernel, ghost objs: set<MemoryMapping>)
      requires this in objs
      modifies k`vm
      ensures k.vm == if ptr != NullAddr then old(k.vm).Unmapped(ptr, length) else old(k.vm)
      ensures Snapshot(k, objs - {this}) == Step(old(Snapshot(k, objs)), Destroyed(this))
    {
      if ptr != NullAddr {
        k.Munmap(ptr, length);
      }
    }
  }

  /** What a caller can prove from the contracts above, in three parts. First:
      given two live owners, swap them, move the first into a new object,
      move-assign that over the second, and destroy all three; no unmap goes
      astray and every mapping the two owned is unmapped with its length. */
  method SwapMoveDestroy(k: Kernel, a: MemoryMapping, b: MemoryMapping)
    requires a != b && Exclusive(Snapshot(k, {a, b}))
    modifies k`vm, a, b
    ensures k.vm.strayUnmaps == old(k.vm.strayUnmaps)
    ensures Unowned(Snapshot(k, {})) == old(Unowned(Snapshot(k, {a, b})))
  {
    ghost var u, n := Unowned(Snapshot(k, {a, b})), k.vm.strayUnmaps;
    ghost var s := Snapshot(k, {a, b});
    a.Swap(b, k, {a, b});
    StepPreserves(s, Swapped(a, b));
    s := Snapshot(k, {a, b});
    assert Exclusive(s) && Unowned(s) == u && s.space.strayUnmaps == n;
    var c := new MemoryMapping.MoveFrom(a, k, {a, b});
    StepPreserves(s, MoveConstructed(c, a));
    s := Snapshot(k, {a, b, c});
    assert Exclusive(s) && Unowned(s) == u && s.space.strayUnmaps == n;
    var _ := b.MoveAssign(c, k, {a, b, c});
    StepPreserves(s, MoveAssigned(b, c));
    s := Snapshot(k, {a, b, c});
    assert Exclusive(s) && Unowned(s) == u && s.space.strayUnmaps == n;
    DestroyAll(k, a, b, c);
  }

  /** Destroying three live objects, in any state, unmaps exactly what they own. */
  method DestroyAll(k: Kernel, a: MemoryMapping, b: MemoryMapping, c: MemoryMapping)
    requires a != b && b != c && a != c && Exclusive(Snapshot(k, {a, b, c}))
    modifies k`vm
    ensures k.vm.strayUnmaps == old(k.vm.strayUnmaps)
    ensures Unowned(Snapshot(k, {})) == old(Unowned(Snapshot(k, {a, b, c})))
  {
    ghost var s := Snapshot(k, {a, b, c});
    a.Destroy(k, {a, b, c});
    StepPreserves(s, Destroyed(a));
    assert {a, b, c} - {a} == {b, c};
    s := Snapshot(k, {b, c});
    b.Destroy(k, {b, c});
    StepPreserves(s, Destroyed(b));
    assert {b, c} - {b} == {c};
    s := Snapshot(k, {c});
    c.Destroy(k, {c});
    StepPreserves(s, Destroyed(c));
    assert {c} - {c} == {};
  }

  /** Next: map a second region beside a live owner and hand both to the first
      part, or destroy the owner alone when the mapping fails. */
  method MapSecond(k: Kernel, fd: int, a: MemoryMapping)
    requires Exclusive(Snapshot(k, {a}))
    modifies k`vm, a
    ensures k.vm.strayUnmaps == old(k.vm.strayUnmaps)
    ensures Unowned(Snapshot(k, {})) == old(Unowned(Snapshot(k, {a})))
  {
    ghost var s := Snapshot(k, {a});
    var rb := MemoryMapping.Map(k, 8192, 1, 1, fd, 4096, {a});
    if rb.Err? {
      a.Destroy(k, {a});
      StepPreserves(s, Destroyed(a));
      assert {a} - {a} == {};
      return;
    }
    var b := rb.value;
    StepPreserves(s, Mapped(b, 8192, true));
    assert {a} + {b} == {a, b};
    SwapMoveDestroy(k, a, b);
  }

  /** Last: map a region and hand it to the previous part. Whatever the kernel
      answers, every region mapped here is unmapped again. */
  method MapTwo(k: Kernel, fd: int)
    modifies k`vm
    ensures k.vm.strayUnmaps == old(k.vm.strayUnmaps)
    ensures k.vm.regions == old(k.vm.regions)
  {
    ghost var s := Snapshot(k, {});
    assert Unowned(s) == k.vm.regions && Exclusive(s);
    var ra := MemoryMapping.Map(k, 4096, 1, 1, fd, 0, {});
    if ra.Err? {
      return;
    }
    var a := ra.value;
    StepPreserves(s, Mapped(a, 4096, true));
    assert {} + {a} == {a};
    MapSecond(k, fd, a);
    assert Unowned(Snapshot(k, {})) == k.vm.regions;
  }
}
