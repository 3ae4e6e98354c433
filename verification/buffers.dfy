/** Ownership of the output buffers the layer hands to its callers: each is
    allocated by `CString::into_raw` and given back through `deallocate_string`.
    Input buffers stay with the caller and never appear here. */
module Buffers {

  /** Text a C string can hold: no interior NUL (the terminator is implicit). */
  type CText = s: string | '\0' !in s

  /** A pointer returned across the boundary: null, or a buffer the layer
      allocated. `addr` identifies the allocation, not a machine address: every
      allocation gets a new one, even where a real allocator would hand out a
      freed address again. */
  datatype Ptr = Null | Buf(addr: nat)

  /** The layer's live output buffers by allocation identity, with the text
      each holds, and the next identity the allocator hands out. */
  datatype Allocator = Allocator(live: map<nat, CText>, next: nat)

  /** Allocator states in which every live identity lies below `next`, so the
      next allocation is always fresh. */
  type Heap = a: Allocator | forall addr :: addr in a.live ==> addr < a.next
    witness Allocator(map[], 0)

  /** `p` points at a buffer that is live in `h`. */
  predicate Owned(h: Heap, p: Ptr)
  {
    p.Buf? && p.addr in h.live
  }

  /** The pointers `deallocate_string` is defined on: null, or a live buffer.
      Any other pointer (never returned, or already released) is undefined
      behaviour, so callers must not pass one. */
  predicate Releasable(h: Heap, p: Ptr)
  {
    p.Null? || Owned(h, p)
  }

  /** `CString::into_raw`: ownership of a freshly allocated buffer holding `text`
      passes to the caller. */
  function IntoRaw(h: Heap, text: CText): (r: (Ptr, Heap))
    ensures r.0.Buf? && !Owned(h, r.0) && Owned(r.1, r.0)
    ensures r.1.live == h.live[r.0.addr := text]
    ensures r.1.next > h.next
  {
    (Buf(h.next), Allocator(h.live[h.next := text], h.next + 1))
  }

  /** `deallocate_string`: null is a no-op; a live buffer is freed. */
  function DeallocateString(h: Heap, p: Ptr): (h': Heap)
    requires Releasable(h, p)
    ensures p.Null? ==> h' == h
    ensures p.Buf? ==> !Owned(h', p) && h'.live.Keys == h.live.Keys - {p.addr}
    ensures forall a :: a in h'.live ==> a in h.live && h'.live[a] == h.live[a]
    ensures h'.next == h.next
  {
    if p.Null? then h else Allocator(h.live - {p.addr}, h.next)
  }

  /** Releasing the buffer just handed over restores the live buffers exactly. */
  lemma ReleaseUndoesIntoRaw(h: Heap, text: CText)
    ensures var (p, h') := IntoRaw(h, text);
      Releasable(h', p) && DeallocateString(h', p).live == h.live
  {
    var (p, h') := IntoRaw(h, text);
    var h'' := DeallocateString(h', p);
    assert h''.live.Keys == h.live.Keys;
  }

  /** Releasing one buffer twice is outside the protocol: after the first
      release the pointer is no longer releasable. */
  lemma NoDoubleRelease(h: Heap, p: Ptr)
    requires Owned(h, p)
    ensures !Releasable(DeallocateString(h, p), p)
  {
  }
}
