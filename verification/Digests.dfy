/**
 Digests name blobs by their content.
 */
module Digests {

  const TWO_64: int := 0x1_0000_0000_0000_0000

  /** The size is a signed 64-bit number. */
  datatype Digest = Digest(hash: nat, size: int)

  /** `size as usize`. */
  function UnsignedSize(d: Digest): nat {
    d.size % TWO_64
  }

  /** `size.max(0) as u64`. */
  function Bytes(d: Digest): nat {
    if d.size > 0 then d.size else 0
  }

  function Hashes(ds: seq<Digest>): set<nat> {
    set d | d in ds :: d.hash
  }
}
