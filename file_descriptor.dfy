/** `systematic::posix::FileDescriptor`: a move-only owner of one file
    descriptor. The object holds one integer; a negative value owns nothing,
    and -1 is what a moved-from object holds.

    The first half of the module states the ownership discipline on values:
    the descriptor of every live object, keyed by any type `K`, together with
    the kernel's descriptor table. The second half is the class itself; each of
    its operations is proved to be one `Step` of that value model, with `K`
    the class. */
module PosixFileDescriptor {
  import opened Os

  /** The member default of `descriptor_`, and what a moved-from object holds. */
  const Empty: int := -1

  /** The destructor's guard: a value the object will close. */
  predicate Owns(d: int)
  {
    d >= 0
  }

  /** One operation of the class applied to the object `obj` (or `dst`/`src`).
      Copying is deleted in the source, so there is no event for it. */
  datatype Event<K> =
    | Adopted(obj: K, descriptor: int)
    | Opened(obj: K, succeeds: bool)
    | MoveConstructed(dst: K, src: K)
    | MoveAssigned(dst: K, src: K)
    | Destroyed(obj: K)

  /** The kernel's descriptor table and the descriptor held by each live object. */
  datatype State<K> = State(table: FdTable, held: map<K, int>)

  /** The descriptors some live object owns. */
  function Owned<K>(held: map<K, int>): (s: set<int>)
    ensures forall o :: o in held && Owns(held[o]) ==> held[o] in s
    ensures forall d :: d in s ==> Owns(d)
  {
    set o | o in held && Owns(held[o]) :: held[o]
  }

  /** Descriptors that are open but that no object owns: closing them is the
      caller's business, so a step that adds to them has leaked a descriptor. */
  function Unowned<K>(s: State<K>): set<int>
  {
    s.table.open - Owned(s.held)
  }

  /** The single-owner invariant: every owned descriptor is open, and no two
      live objects own the same one. */
  ghost predicate Exclusive<K>(s: State<K>)
  {
    && (forall o :: o in s.held && Owns(s.held[o]) ==> s.held[o] in s.table.open)
    && (forall o, p :: o in s.held && p in s.held && o != p && Owns(s.held[o]) ==> s.held[o] != s.held[p])
  }

  /** The effect of one operation. An event that no C++ program can express (an
      object constructed twice, or used after it was destroyed) leaves the state
      as it is. */
  function Step<K>(s: State<K>, e: Event<K>): State<K>
  {
    match e
    case Adopted(o, d) =>
      if o in s.held then s else State(s.table, s.held[o := d])
    case Opened(o, ok) =>
      if o in s.held || !ok then s
      else
        var (t, d) := s.table.Opened();
        State(t, s.held[o := d])
    case MoveConstructed(dst, src) =>
      if dst in s.held || src !in s.held then s
      else State(s.table, s.held[dst := s.held[src]][src := Empty])
    case MoveAssigned(dst, src) =>
      if dst !in s.held || src !in s.held then s
      else State(s.table, s.held[dst := s.held[src]][src := s.held[dst]])
    case Destroyed(o) =>
      if o !in s.held then s
      else
        var d := s.held[o];
        State(if Owns(d) then s.table.Closed(d) else s.table, s.held - {o})
  }

  /** What the caller must guarantee: a descriptor handed to the adopting
      constructor is either one the object will not close, or an open one that
      the caller owns and no object holds. */
  ghost predicate Legal<K>(s: State<K>, e: Event<K>)
  {
    match e
    case Adopted(o, d) => o in s.held || !Owns(d) || d in Unowned(s)
    case _ => true
  }

  /** A sequence of operations, applied in order. */
  function Run<K>(s: State<K>, es: seq<Event<K>>): State<K>
    decreases |es|
  {
    if es == [] then s else Run(Step(s, es[0]), es[1..])
  }

  ghost predicate LegalRun<K>(s: State<K>, es: seq<Event<K>>)
    decreases |es|
  {
    es == [] || (Legal(s, es[0]) && LegalRun(Step(s, es[0]), es[1..]))
  }

  /** Every operation keeps the single-owner invariant, never closes a
      descriptor that is not open, and never leaks one: only adoption changes
      the set of open descriptors no object owns, and then only by taking one
      out of it. */
  lemma StepPreserves<K>(s: State<K>, e: Event<K>)
    requires Exclusive(s) && Legal(s, e)
    ensures Exclusive(Step(s, e))
    ensures Step(s, e).table.strayCloses == s.table.strayCloses
    ensures e.Adopted? ==> Unowned(Step(s, e)) <= Unowned(s)
    ensures !e.Adopted? ==> Unowned(Step(s, e)) == Unowned(s)
  {
    var t := Step(s, e);
    match e
    case Adopted(o, d) =>
      if o !in s.held {
        forall x | x in Owned(t.held) ensures x in Owned(s.held) || x == d {
          var p :| p in t.held && Owns(t.held[p]) && t.held[p] == x;
          if p != o { assert p in s.held; }
        }
        forall x | x in Owned(s.held) ensures x in Owned(t.held) {
          var p :| p in s.held && Owns(s.held[p]) && s.held[p] == x;
          assert t.held[p] == x;
        }
      }
    case Opened(o, ok) =>
      if o !in s.held && ok {
        var d := s.table.Opened().1;
        forall x | x in Owned(t.held) ensures x in Owned(s.held) || x == d {
          var p :| p in t.held && Owns(t.held[p]) && t.held[p] == x;
          if p != o { assert p in s.held; }
        }
        forall x | x in Owned(s.held) ensures x in Owned(t.held) {
          var p :| p in s.held && Owns(s.held[p]) && s.held[p] == x;
          assert t.held[p] == x;
        }
        assert o in t.held && t.held[o] == d && Owns(d);
        assert d in Owned(t.held) && d !in Owned(s.held);
      }
    case MoveConstructed(dst, src) =>
      if dst !in s.held && src in s.held {
        forall x | x in Owned(t.held) ensures x in Owned(s.held) {
          var p :| p in t.held && Owns(t.held[p]) && t.held[p] == x;
          if p == dst { assert s.held[src] == x; } else { assert p in s.held; }
        }
        forall x | x in Owned(s.held) ensures x in Owned(t.held) {
          var p :| p in s.held && Owns(s.held[p]) && s.held[p] == x;
          if p == src { assert t.held[dst] == x; } else { assert t.held[p] == x; }
        }
      }
    case MoveAssigned(dst, src) =>
      if dst in s.held && src in s.held {
        forall x | x in Owned(t.held) ensures x in Owned(s.held) {
          var p :| p in t.held && Owns(t.held[p]) && t.held[p] == x;
          if p == dst { assert s.held[src] == x; }
          else if p == src { assert s.held[dst] == x; }
          else { assert s.held[p] == x; }
        }
        forall x | x in Owned(s.held) ensures x in Owned(t.held) {
          var p :| p in s.held && Owns(s.held[p]) && s.held[p] == x;
          if p == src { assert t.held[dst] == x; }
          else if p == dst { assert t.held[src] == x; }
          else { assert t.held[p] == x; }
        }
      }
    case Destroyed(o) =>
      if o in s.held {
        var d := s.held[o];
        forall x | x in Owned(t.held) ensures x in Owned(s.held) && (Owns(d) ==> x != d) {
          var p :| p in t.held && Owns(t.held[p]) && t.held[p] == x;
          assert p in s.held && p != o;
        }
        forall x | x in Owned(s.held) && x != d ensures x in Owned(t.held) {
          var p :| p in s.held && Owns(s.held[p]) && s.held[p] == x;
          assert p != o && t.held[p] == x;
        }
      }
  }

  /** Over any legal sequence of operations, the invariant holds throughout,
      no descriptor is closed twice (nor closed while not open), and nothing
      leaks: once every object is destroyed, every descriptor still open was
      already open and unowned at the start. */
  lemma {:induction false} RunPreserves<K>(s: State<K>, es: seq<Event<K>>)
    requires Exclusive(s) && LegalRun(s, es)
    ensures Exclusive(Run(s, es))
    ensures Run(s, es).table.strayCloses == s.table.strayCloses
    ensures Unowned(Run(s, es)) <= Unowned(s)
    ensures Run(s, es).held == map[] ==> Run(s, es).table.open <= Unowned(s)
    decreases |es|
  {
    if es != [] {
      StepPreserves(s, es[0]);
      RunPreserves(Step(s, es[0]), es[1..]);
    }
  }

  /** A moved-from object closes nothing: moving and then destroying the source
      leaves the descriptor table as it was. */
  lemma MovedFromClosesNothing<K>(s: State<K>, dst: K, src: K)
    requires dst !in s.held && src in s.held && dst != src
    ensures Step(Step(s, MoveConstructed(dst, src)), Destroyed(src)).table == s.table
    ensures Step(Step(s, MoveConstructed(dst, src)), Destroyed(src)).held == (s.held - {src})[dst := s.held[src]]
  {
  }

  /** Destroying an owner closes exactly its own descriptor. */
  lemma DestroyClosesOwn<K>(s: State<K>, o: K)
    requires Exclusive(s) && o in s.held && Owns(s.held[o])
    ensures Step(s, Destroyed(o)).table == FdTable(s.table.open - {s.held[o]}, s.table.strayCloses)
    ensures forall p :: p in Step(s, Destroyed(o)).held ==> Step(s, Destroyed(o)).held[p] == s.held[p]
  {
  }

  /** The state of the live objects `objs` and of the kernel `k`. */
  ghost function Snapshot(k: Kernel, objs: set<FileDescriptor>): State<FileDescriptor>
    reads k, objs
  {
    State(k.fds, map o | o in objs :: o.descriptor)
  }

  class FileDescriptor {
    var descriptor: int

    /** Adopts `d` unchanged; cannot fail, even for a negative `d`. The ghost
        parameters name the kernel and the other live objects. */
    constructor Adopt(d: int, ghost k: Kernel, ghost objs: set<FileDescriptor>)
      ensures descriptor == d
      ensures Snapshot(k, objs + {this}) == Step(old(Snapshot(k, objs)), Adopted(this, d))
    {
      descriptor := d;
    }

    /** Opens `fileName`; fails with "open() failed", leaving everything as it
        was, when `open` returns a negative value, so that every object built
        this way owns a descriptor. */
    static method Open(k: Kernel, fileName: string, flags: int, ghost objs: set<FileDescriptor>)
      returns (r: Result<FileDescriptor>)
      modifies k`fds
      ensures r.Err? ==> r.error == OsError("open() failed")
      ensures r.Err? ==> Snapshot(k, objs) == old(Snapshot(k, objs))
      ensures r.Ok? ==> fresh(r.value) && Owns(r.value.descriptor)
      ensures r.Ok? ==> Snapshot(k, objs + {r.value}) == Step(old(Snapshot(k, objs)), Opened(r.value, true))
    {
      var d := k.Open(fileName, flags);
      if d < 0 {
        r := Err(OsError("open() failed"));
      } else {
        var f := new FileDescriptor.Adopt(d, k, objs);
        r := Ok(f);
      }
    }

    /** The move constructor: takes `other`'s descriptor and leaves -1 behind. */
    constructor MoveFrom(other: FileDescriptor, ghost k: Kernel, ghost objs: set<FileDescriptor>)
      requires other in objs
      modifies other
      ensures descriptor == old(other.descriptor) && other.descriptor == Empty
      ensures Snapshot(k, objs + {this}) == Step(old(Snapshot(k, objs)), MoveConstructed(this, other))
    {
      descriptor := other.descriptor;
      new;
      other.descriptor := Empty;
    }

    /** Move assignment: exchanges the two descriptors, closing nothing, so this
        object's old descriptor is now owned by `other`; returns this object. */
    method MoveAssign(other: FileDescriptor, ghost k: Kernel, ghost objs: set<FileDescriptor>)
      returns (r: FileDescriptor)
      requires this in objs && other in objs
      modifies this, other
      ensures r == this
      ensures descriptor == old(other.descriptor) && other.descriptor == old(descriptor)
      ensures Snapshot(k, objs) == Step(old(Snapshot(k, objs)), MoveAssigned(this, other))
    {
      var t := descriptor;
      descriptor := other.descriptor;
      other.descriptor := t;
      r := this;
    }

    /** `operator int`: the stored descriptor; changes nothing. */
    method Get() returns (d: int)
      ensures d == descriptor
    {
      d := descriptor;
    }

    /** The destructor: closes the descriptor exactly when it is non-negative. */
    method Destroy(k: Kernel, ghost objs: set<FileDescriptor>)
      requires this in objs
      modifies k`fds
      ensures k.fds == if Owns(descriptor) then old(k.fds).Closed(descriptor) else old(k.fds)
      ensures Snapshot(k, objs - {this}) == Step(old(Snapshot(k, objs)), Destroyed(this))
    {
      if descriptor >= 0 {
        k.Close(descriptor);
      }
    }
  }

  /** What a caller can prove from the contracts above, in three parts. First:
      given two live owners, move the first into a new object, move-assign that
      over the second, and destroy all three; no close goes astray and every
      descriptor the two owned is closed. */
  method MoveAssignDestroy(k: Kernel, a: FileDescriptor, b: FileDescriptor)
    requires a != b && Exclusive(Snapshot(k, {a, b}))
    modifies k`fds, a, b
    ensures k.fds.strayCloses == old(k.fds.strayCloses)
    ensures Unowned(Snapshot(k, {})) == old(Unowned(Snapshot(k, {a, b})))
  {
    ghost var u, n := Unowned(Snapshot(k, {a, b})), k.fds.strayCloses;
    ghost var s := Snapshot(k, {a, b});
    var c := new FileDescriptor.MoveFrom(a, k, {a, b});
    StepPreserves(s, MoveConstructed(c, a));
    s := Snapshot(k, {a, b, c});
    assert Exclusive(s) && Unowned(s) == u && s.table.strayCloses == n;
    var _ := b.MoveAssign(c, k, {a, b, c});
    StepPreserves(s, MoveAssigned(b, c));
    s := Snapshot(k, {a, b, c});
    assert Exclusive(s) && Unowned(s) == u && s.table.strayCloses == n;
    DestroyAll(k, a, b, c);
  }

  /** Destroying three live objects, in any state, closes exactly what they own. */
  method DestroyAll(k: Kernel, a: FileDescriptor, b: FileDescriptor, c: FileDescriptor)
    requires a != b && b != c && a != c && Exclusive(Snapshot(k, {a, b, c}))
    modifies k`fds
    ensures k.fds.strayCloses == old(k.fds.strayCloses)
    ensures Unowned(Snapshot(k, {})) == old(Unowned(Snapshot(k, {a, b, c})))
  {
    ghost var s := Snapshot(k, {a, b, c});
    a.Destroy(k, {a, b, c});
    StepPreserves(s, Destroyed(a));
    assert {a, b, c} - {a} == {b, c};
    s := Snapshot(k, {b, c});
    b.Destroy(k, {b, c});
    StepPreserves(s, Destroyed(b));
    assert {b, c} - {b} == {c};
    s := Snapshot(k, {c});
    c.Destroy(k, {c});
    StepPreserves(s, Destroyed(c));
    assert {c} - {c} == {};
  }

  /** Next: open a second file beside a live owner and hand both to the first
      part, or destroy the owner alone when the open fails. */
  method OpenSecond(k: Kernel, a: FileDescriptor)
    requires Exclusive(Snapshot(k, {a}))
    modifies k`fds, a
    ensures k.fds.strayCloses == old(k.fds.strayCloses)
    ensures Unowned(Snapshot(k, {})) == old(Unowned(Snapshot(k, {a})))
  {
    ghost var s := Snapshot(k, {a});
    var rb := FileDescriptor.Open(k, "b", 0, {a});
    if rb.Err? {
      a.Destroy(k, {a});
      StepPreserves(s, Destroyed(a));
      assert {a} - {a} == {};
      return;
    }
    var b := rb.value;
    StepPreserves(s, Opened(b, true));
    assert {a} + {b} == {a, b};
    MoveAssignDestroy(k, a, b);
  }

  /** Last: open a file and hand it to the previous part. Whatever the kernel
      answers, every descriptor opened here is closed again. */
  method OpenTwo(k: Kernel)
    modifies k`fds
    ensures k.fds.strayCloses == old(k.fds.strayCloses)
    ensures k.fds.open == old(k.fds.open)
  {
    ghost var s := Snapshot(k, {});
    assert Unowned(s) == k.fds.open && Exclusive(s);
    var ra := FileDescriptor.Open(k, "a", 0, {});
    if ra.Err? {
      return;
    }
    var a := ra.value;
    StepPreserves(s, Opened(a, true));
    assert {} + {a} == {a};
    OpenSecond(k, a);
    assert Unowned(Snapshot(k, {})) == k.fds.open;
  }
}
