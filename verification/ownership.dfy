/** A caller's session with the layer, seen from the buffer-ownership side: the
    string-returning calls that handed over a buffer, and the releases. */
module Ownership {
  import opened Buffers

  /** One step of a session: a call that handed over a buffer holding `text`,
      or a call to `deallocate_string`. */
  datatype Step = Acquire(text: CText) | Release(p: Ptr)

  /** The caller keeps the protocol: every release passes null or a buffer that
      is live at that moment. */
  predicate Follows(h: Heap, steps: seq<Step>)
    decreases |steps|
  {
    if steps == [] then true
    else match steps[0]
      case Acquire(t) => Follows(IntoRaw(h, t).1, steps[1..])
      case Release(p) => Releasable(h, p) && Follows(DeallocateString(h, p), steps[1..])
  }

  /** The allocator state after the session. */
  function Run(h: Heap, steps: seq<Step>): Heap
    requires Follows(h, steps)
    decreases |steps|
  {
    if steps == [] then h
    else match steps[0]
      case Acquire(t) => Run(IntoRaw(h, t).1, steps[1..])
      case Release(p) => Run(DeallocateString(h, p), steps[1..])
  }

  /** The allocation identities handed over during the session. */
  function Acquired(h: Heap, steps: seq<Step>): set<nat>
    requires Follows(h, steps)
    decreases |steps|
  {
    if steps == [] then {}
    else match steps[0]
      case Acquire(t) => {IntoRaw(h, t).0.addr} + Acquired(IntoRaw(h, t).1, steps[1..])
      case Release(p) => Acquired(DeallocateString(h, p), steps[1..])
  }

  /** The allocation identities passed to `deallocate_string` during the session. */
  function Released(steps: seq<Step>): set<nat>
    decreases |steps|
  {
    if steps == [] then {}
    else match steps[0]
      case Acquire(_) => Released(steps[1..])
      case Release(p) => (if p.Buf? then {p.addr} else {}) + Released(steps[1..])
  }

  /** Every buffer handed over during a session is a new allocation: its identity was not
      in use when the session began. */
  lemma {:induction false} AcquiredAreFresh(h: Heap, steps: seq<Step>)
    requires Follows(h, steps)
    ensures forall a :: a in Acquired(h, steps) ==> a >= h.next && a !in h.live
    decreases |steps|
  {
    if steps != [] {
      match steps[0]
      case Acquire(t) =>
        AcquiredAreFresh(IntoRaw(h, t).1, steps[1..]);
      case Release(p) =>
        AcquiredAreFresh(DeallocateString(h, p), steps[1..]);
    }
  }

  /** After a protocol-respecting session the live buffers are the initial ones
      plus those handed over, minus those released; a buffer that stays live
      keeps its contents. */
  lemma {:induction false} LiveAfterRun(h: Heap, steps: seq<Step>)
    requires Follows(h, steps)
    ensures Run(h, steps).live.Keys == (h.live.Keys + Acquired(h, steps)) - Released(steps)
    ensures forall a :: a in h.live && a in Run(h, steps).live ==> Run(h, steps).live[a] == h.live[a]
    decreases |steps|
  {
    if steps != [] {
      match steps[0]
      case Acquire(t) =>
        var (p, h1) := IntoRaw(h, t);
        LiveAfterRun(h1, steps[1..]);
      case Release(p) =>
        var h1 := DeallocateString(h, p);
        LiveAfterRun(h1, steps[1..]);
        if p.Buf? {
          AcquiredAreFresh(h1, steps[1..]);
          assert p.addr !in Acquired(h1, steps[1..]);
        }
    }
  }

  /** A caller that releases exactly the buffers it was handed leaks nothing:
      the live buffers end as they began. */
  lemma BalancedSessionLeavesNoLeak(h: Heap, steps: seq<Step>)
    requires Follows(h, steps)
    requires Released(steps) == Acquired(h, steps)
    ensures Run(h, steps).live == h.live
  {
    LiveAfterRun(h, steps);
    AcquiredAreFresh(h, steps);
    assert Run(h, steps).live.Keys == h.live.Keys;
  }
}
