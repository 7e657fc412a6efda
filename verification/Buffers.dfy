/** Caller-owned character buffers with a terminator. */
module Buffers {

  /** The buffer starts with these bytes and a terminator. */
  predicate Holds(out: array<char>, text: string)
    reads out
  {
    |text| < out.Length && out[..|text|] == text && out[|text|] == 0 as char
  }

  method Put(out: array<char>, at: nat, s: string)
    requires at + |s| <= out.Length
    modifies out
    ensures out[..] == old(out[..at]) + s + old(out[at + |s|..])
    ensures out[..at + |s|] == old(out[..at]) + s
  {
    var i: nat := 0;
    while i < |s|
      invariant i <= |s|
      invariant forall k | 0 <= k < out.Length :: out[k] == if at <= k < at + i then s[k - at] else old(out[k])
    {
      out[at + i] := s[i];
      i := i + 1;
    }
  }

  method Terminate(out: array<char>, used: nat, ghost text: string)
    requires used == |text| < out.Length && out[..used] == text
    modifies out
    ensures Holds(out, text)
  {
    out[used] := 0 as char;
    assert out[..used] == text;
  }
}
