/**
 * The patterns every accessor of the binding follows at the cgo boundary:
 * a `C.CString` released by a `defer C.free` on every path, a native string
 * out-parameter copied and released with `RTI_Connector_free_string` only when
 * the call succeeded, and the small value translations done on the Go side
 * (0-based to 1-based indices, `bool` to C `int`, C `double` to Go `int`).
 */
module Boundary {
  import opened Decimal
  import opened Status
  import opened Native

  /** The events are a valid heap history that ends with the heap it started from: nothing leaked, nothing freed twice. */
  predicate Balanced(heap: map<nat, Block>, events: seq<Event>) {
    Replay(heap, events) == Some(heap)
  }

  /** A buffer from `C.CString(text)` whose release is deferred until the events `inner` have happened. */
  function Scoped(p: Ptr, text: string, inner: seq<Event>): (events: seq<Event>)
    ensures |events| == |inner| + 2 && events[0] == Allocated(p, text) && events[|events| - 1] == Freed(p)
  {
    [Allocated(p, text)] + inner + [Freed(p)]
  }

  /**
   * A native call with a `char**` out-parameter answered with r: on success the
   * string s handed back is copied and then released, once; on failure nothing
   * was handed back and nothing is released.
   */
  function Fetched(c: Call, r: Reply, s: Ptr): (events: seq<Event>)
    ensures |events| >= 1 && events[0] == Invoked(c)
  {
    if r.status == 0 then [Invoked(c), Returned(s, r.text), StringFreed(s)] else [Invoked(c)]
  }

  /** The string handed back is released once on success; on failure none is handed back or released. */
  lemma FetchedReleasesOnce(c: Call, r: Reply, s: Ptr)
    ensures multiset(Fetched(c, r, s))[StringFreed(s)] == (if r.status == 0 then 1 else 0)
    ensures multiset(Fetched(c, r, s))[StringFreed(s)] == multiset(Fetched(c, r, s))[Returned(s, r.text)]
  {
  }

  /** What a getter with a string out-parameter returns: the copied text on success, "" with the error otherwise. */
  function FetchResult(r: Reply): (result: (string, Error))
    ensures result.1 == CheckRetcode(r.status, r.lastError)
    ensures result.0 == if result.1 == Ok then r.text else ""
  {
    if r.status == 0 then (r.text, Ok) else ("", CheckRetcode(r.status, r.lastError))
  }

  /** A plain native call touches no buffer. */
  lemma InvokedBalanced(heap: map<nat, Block>, c: Call)
    ensures Balanced(heap, [Invoked(c)])
  {
    assert [Invoked(c)][1..] == [];
  }

  /** Allocating a fresh buffer, doing balanced work, and freeing it is balanced. */
  lemma ScopedBalanced(heap: map<nat, Block>, p: Ptr, text: string, inner: seq<Event>)
    requires p.Addr? && p.id !in heap
    requires Balanced(heap[p.id := Block(text, GoHeap)], inner)
    ensures Balanced(heap, Scoped(p, text, inner))
  {
    var h := heap[p.id := Block(text, GoHeap)];
    ReplayConcat(heap, [Allocated(p, text)] + inner, [Freed(p)]);
    ReplayConcat(heap, [Allocated(p, text)], inner);
    assert [Allocated(p, text)][1..] == [];
    assert Replay(heap, [Allocated(p, text)]) == Some(h);
    assert [Freed(p)][1..] == [];
    assert h - {p.id} == heap;
  }

  /** A string handed back at a fresh address is released exactly once, so the call is balanced. */
  lemma FetchedBalanced(heap: map<nat, Block>, c: Call, r: Reply, s: Ptr)
    requires s.Addr? && s.id !in heap
    ensures Balanced(heap, Fetched(c, r, s))
  {
    if r.status == 0 {
      var ev := Fetched(c, r, s);
      var h := heap[s.id := Block(r.text, NativeHeap)];
      assert ev[1..] == [Returned(s, r.text), StringFreed(s)];
      assert ev[1..][1..] == [StringFreed(s)];
      assert ev[1..][1..][1..] == [];
      assert h - {s.id} == heap;
      assert Replay(h, ev[1..][1..]) == Some(heap);
      assert Replay(heap, ev[1..]) == Replay(h, ev[1..][1..]);
    } else {
      InvokedBalanced(heap, c);
    }
  }

  /**
   * One native call with a string out-parameter: on success the text is copied
   * and the native string released; either way the heap ends as it began.
   */
  method Fetch(lib: Library, c: Call) returns (text: string, err: Error)
    requires lib.Valid()
    modifies lib
    ensures
      var r := lib.oracle(old(lib.log) + [Invoked(c)]);
      && lib.log == old(lib.log) + Fetched(c, r, Addr(old(lib.next)))
      && Balanced(old(lib.heap), Fetched(c, r, Addr(old(lib.next))))
      && (text, err) == FetchResult(r)
    ensures lib.Valid() && lib.heap == old(lib.heap) && lib.participants == old(lib.participants)
  {
    var r, s := lib.InvokeForString(c);
    FetchedBalanced(old(lib.heap), c, r, Addr(old(lib.next)));
    err := CheckRetcode(r.status, r.lastError);
    if err != Ok {
      return "", err;
    }
    text := r.text;
    lib.FreeString(s);
  }

  /**
   * A `C.CString` of arg held by a deferred free around a `Fetch` whose call
   * names the buffer: the call is built from the buffer's address.
   */
  method ScopedFetch(lib: Library, arg: string, call: Ptr -> Call) returns (text: string, err: Error)
    requires lib.Valid()
    modifies lib
    ensures
      var p, s := Addr(old(lib.next)), Addr(old(lib.next) + 1);
      var r := lib.oracle(old(lib.log) + [Allocated(p, arg), Invoked(call(p))]);
      && lib.log == old(lib.log) + Scoped(p, arg, Fetched(call(p), r, s))
      && Balanced(old(lib.heap), Scoped(p, arg, Fetched(call(p), r, s)))
      && (text, err) == FetchResult(r)
    ensures lib.Valid() && lib.heap == old(lib.heap) && lib.participants == old(lib.participants)
  {
    var p := lib.CString(arg);
    ghost var h1, log1 := lib.heap, lib.log;
    assert log1 == old(lib.log) + [Allocated(p, arg)];
    text, err := Fetch(lib, call(p));
    assert log1 + [Invoked(call(p))] == old(lib.log) + [Allocated(p, arg), Invoked(call(p))];
    ghost var fetched := lib.log[|log1|..];
    assert lib.log == log1 + fetched;
    lib.Free(p);
    assert lib.log == old(lib.log) + Scoped(p, arg, fetched);
    ScopedBalanced(old(lib.heap), p, arg, fetched);
  }

  /**
   * A `C.CString` of arg held by a deferred free around one native call that
   * names the buffer and hands back no string.
   */
  method ScopedInvoke(lib: Library, arg: string, call: Ptr -> Call) returns (r: Reply)
    requires lib.Valid()
    modifies lib
    ensures
      var p := Addr(old(lib.next));
      && r == lib.oracle(old(lib.log) + [Allocated(p, arg), Invoked(call(p))])
      && lib.log == old(lib.log) + Scoped(p, arg, [Invoked(call(p))])
      && Balanced(old(lib.heap), Scoped(p, arg, [Invoked(call(p))]))
    ensures lib.Valid() && lib.heap == old(lib.heap) && lib.participants == old(lib.participants)
  {
    var p := lib.CString(arg);
    r := lib.Invoke(call(p));
    assert lib.log == old(lib.log) + [Allocated(p, arg), Invoked(call(p))];
    lib.Free(p);
    InvokedBalanced(old(lib.heap)[p.id := Block(arg, GoHeap)], call(p));
    ScopedBalanced(old(lib.heap), p, arg, [Invoked(call(p))]);
  }

  /** `C.int(index+1)`: the 1-based index the native layer takes for a 0-based Go index. */
  function NativeIndex(index: Int64): (n: Int32)
    ensures 0 <= index < 0x7fff_ffff ==> n == index + 1
    ensures (n - (index + 1)) % 0x1_0000_0000 == 0
  {
    ToInt32(index + 1)
  }

  /** Distinct in-range Go indices reach distinct native samples, and index 0 is the first. */
  lemma NativeIndexInjective(i: Int64, j: Int64)
    requires 0 <= i < 0x7fff_ffff && 0 <= j < 0x7fff_ffff
    ensures NativeIndex(i) >= 1 && NativeIndex(0) == 1
    ensures NativeIndex(i) == NativeIndex(j) <==> i == j
  {
  }

  /**
   * Every non-negative Go index from 2^31 - 1 up to 2^32 - 2 has a 1-based
   * successor that no longer fits a C int: it reaches the library as the
   * negative native index index + 1 - 2^32.
   */
  lemma NativeIndexWraps(index: Int64)
    requires 0x7fff_ffff <= index <= 0xffff_fffe
    ensures NativeIndex(index) == index + 1 - 0x1_0000_0000
    ensures NativeIndex(index) < 0
  {
    assert (index + 1) % 0x1_0000_0000 == index + 1;
  }

  /** `retVal != 0` on a C int. */
  function CIntToBool(n: Int32): (b: bool)
    ensures b <==> n != 0
  {
    n != 0
  }

  /** `SetBoolean`'s choice: 1 for true, 0 for false. */
  function BoolToCInt(b: bool): (n: Int32)
    ensures n == 0 || n == 1
    ensures n == 1 <==> b
  {
    if b then 1 else 0
  }

  /** The two conversions are inverse: a boolean written with SetBoolean reads back unchanged. */
  lemma BoolRoundTrip(b: bool)
    ensures CIntToBool(BoolToCInt(b)) == b
  {
  }

  /** Go's conversion of a `C.double` to `int`: the fraction is discarded, towards zero. */
  function Trunc(x: real): (n: int)
    ensures 0.0 <= x ==> 0 <= n && n as real <= x < n as real + 1.0
    ensures x < 0.0 ==> n <= 0 && n as real - 1.0 < x <= n as real
    ensures x == x.Floor as real ==> n == x.Floor
  {
    if x >= 0.0 then x.Floor else -((-x).Floor)
  }
}
