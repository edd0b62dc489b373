/** IP addresses as numbers, and the prefixes that routing and filter rules name them by. */
module Addresses {

  datatype Address = V4(bits: nat) | V6(bits: nat)

  /** All addresses of one family that agree with `base` above the low `free` bits. */
  datatype Prefix = Prefix(base: Address, free: nat)

  function Pow2(n: nat): (r: nat)
    ensures r > 0
  {
    if n == 0 then 1 else 2 * Pow2(n - 1)
  }

  predicate Contains(prefix: Prefix, address: Address) {
    && prefix.base.V4? == address.V4?
    && address.bits / Pow2(prefix.free) == prefix.base.bits / Pow2(prefix.free)
  }

  predicate InAny(prefixes: seq<Prefix>, address: Address) {
    exists i :: 0 <= i < |prefixes| && Contains(prefixes[i], address)
  }

  function Ip4(a: nat, b: nat, c: nat, d: nat): Address {
    V4(a * 0x100_0000 + b * 0x1_0000 + c * 0x100 + d)
  }

  function Net4(a: nat, b: nat, length: nat): Prefix
    requires length <= 32
  {
    Prefix(Ip4(a, b, 0, 0), 32 - length)
  }

  /** A prefix of an IPv6 address given by its first sixteen bits. */
  function Net6(first: nat, length: nat): Prefix
    requires length <= 128
  {
    Prefix(V6(first * Pow2(112)), 128 - length)
  }

  function Host(address: Address): Prefix {
    Prefix(address, 0)
  }

  lemma HostIsExact(a: Address, b: Address)
    ensures Contains(Host(a), b) <==> a == b
  {
  }
}
