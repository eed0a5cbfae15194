/** Byte strings. */
module Octets {

  type Byte = b: nat | b < 256
  type Bytes = seq<Byte>

  function Joined(parts: seq<Bytes>): Bytes
    decreases |parts|
  {
    if parts == [] then [] else parts[0] + Joined(parts[1..])
  }

  /** The first `limit` bytes; a negative limit keeps nothing. */
  function Take(s: Bytes, limit: int): Bytes {
    if limit <= 0 then [] else if limit < |s| then s[..limit] else s
  }

  lemma TakeMore(s: Bytes, p: Bytes, limit: int)
    ensures Take(s + p, limit) == Take(s, limit) + Take(p, limit - |Take(s, limit)|)
  {
    if 0 < limit < |s| {
      assert (s + p)[..limit] == s[..limit];
    } else if |s| <= limit < |s + p| {
      assert (s + p)[..limit] == s + p[..limit - |s|];
    }
  }
}
