/** Directory listings read in pieces through ListAt. */
module Listing {

  /** How many entries ListAt copies into a buffer of this size, and whether it reports the end. */
  function Count(entries: nat, size: nat, offset: nat): (nat, bool) {
    if offset >= entries then (0, true)
    else
      var n := if size <= entries - offset then size else entries - offset;
      (n, n < size)
  }

  method ListAt<T>(entries: seq<T>, buffer: array<T>, offset: nat) returns (n: nat, eof: bool)
    modifies buffer
    ensures (n, eof) == Count(|entries|, buffer.Length, offset)
    ensures n <= buffer.Length && (n > 0 ==> offset + n <= |entries|)
    ensures n == buffer.Length || offset + n >= |entries|
    ensures eof <==> offset >= |entries| || offset + buffer.Length > |entries|
    ensures forall i :: 0 <= i < n ==> buffer[i] == entries[offset + i]
    ensures forall i :: n <= i < buffer.Length ==> buffer[i] == old(buffer[i])
  {
    if offset >= |entries| {
      return 0, true;
    }
    n := 0;
    while n < buffer.Length && offset + n < |entries|
      invariant n <= buffer.Length && offset + n <= |entries|
      invariant forall i :: 0 <= i < n ==> buffer[i] == entries[offset + i]
      invariant forall i :: n <= i < buffer.Length ==> buffer[i] == old(buffer[i])
    {
      buffer[n] := entries[offset + n];
      n := n + 1;
    }
    eof := n < buffer.Length;
  }

  /** The entries a client collects from call number `call` on, reading at `offset` until the end is reported. */
  function Collected<T>(entries: seq<T>, sizes: nat -> nat, call: nat, offset: nat): seq<T>
    requires forall i: nat :: sizes(i) > 0
    requires offset <= |entries|
    decreases |entries| - offset
  {
    var (n, eof) := Count(|entries|, sizes(call), offset);
    entries[offset..offset + n] + if eof then [] else Collected(entries, sizes, call + 1, offset + n)
  }

  /** Whatever the sizes of the buffers, the client ends with every entry exactly once, in order. */
  lemma {:induction false} CollectsEveryEntryOnce<T>(entries: seq<T>, sizes: nat -> nat, call: nat, offset: nat)
    requires forall i: nat :: sizes(i) > 0
    requires offset <= |entries|
    ensures Collected(entries, sizes, call, offset) == entries[offset..]
    decreases |entries| - offset
  {
    var (n, eof) := Count(|entries|, sizes(call), offset);
    if !eof {
      CollectsEveryEntryOnce(entries, sizes, call + 1, offset + n);
    }
  }
}
