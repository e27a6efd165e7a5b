/**
 * IP addresses and networks as the ipaddr library sees them, reduced to what
 * extract_user_identifier (models.py) needs: containment of an address in a
 * network, and an address's supernet with its low bits cleared. Addresses are
 * naturals of width 32 (version 4) or 128 (version 6).
 */
module Addresses {
  import opened Outcomes

  datatype Version = V4 | V6

  function Width(v: Version): nat {
    if v == V4 then 32 else 128
  }

  function Pow2(k: nat): nat {
    if k == 0 then 1 else 2 * Pow2(k - 1)
  }

  datatype Address = Address(version: Version, bits: nat)

  predicate ValidAddress(a: Address) {
    a.bits < Pow2(Width(a.version))
  }

  /** A parsed network: a base address and a prefix length no larger than the width. */
  datatype IpNetwork = IpNetwork(version: Version, ip: nat, prefixlen: nat)
  type Network = n: IpNetwork | n.prefixlen <= Width(n.version) witness IpNetwork(V4, 0, 0)

  /** `bits` with its low `k` bits cleared. */
  function ClearLow(bits: nat, k: nat): nat {
    if k == 0 then bits else 2 * ClearLow(bits / 2, k - 1)
  }

  /**
   * `address in network` (ipaddr's `__contains__`): same version, and the
   * address lies between the network address (the base with its host bits
   * cleared) and the broadcast address (the same with them all set).
   */
  function Contains(n: Network, a: Address): (r: bool)
    ensures var k := Width(n.version) - n.prefixlen;
      r <==> n.version == a.version && ClearLow(n.ip, k) <= a.bits < ClearLow(n.ip, k) + Pow2(k)
  {
    var k := Width(n.version) - n.prefixlen;
    AlignedBlock(n.ip, a.bits, k);
    n.version == a.version && ClearLow(a.bits, k) == ClearLow(n.ip, k)
  }

  /** An address lies in the aligned 2^k block of `ip` exactly when clearing its low k bits gives that block's start. */
  lemma {:induction false} AlignedBlock(ip: nat, bits: nat, k: nat)
    ensures ClearLow(ip, k) <= bits < ClearLow(ip, k) + Pow2(k) <==> ClearLow(bits, k) == ClearLow(ip, k)
  {
    if k > 0 {
      AlignedBlock(ip / 2, bits / 2, k - 1);
    }
  }

  lemma {:induction false} ClearLowBounds(bits: nat, k: nat)
    ensures ClearLow(bits, k) <= bits < ClearLow(bits, k) + Pow2(k)
  {
    if k > 0 {
      ClearLowBounds(bits / 2, k - 1);
    }
  }

  lemma {:induction false} ClearLowIdempotent(bits: nat, k: nat)
    ensures ClearLow(ClearLow(bits, k), k) == ClearLow(bits, k)
  {
    if k > 0 {
      ClearLowIdempotent(bits / 2, k - 1);
      assert ClearLow(bits, k) / 2 == ClearLow(bits / 2, k - 1);
    }
  }

  /**
   * `IPNetwork(address).supernet(suffixlen).network`: the address with its low
   * `suffixlen` bits cleared. A suffixlen outside 0..width makes ipaddr raise
   * ValueError.
   */
  function Supernet(a: Address, suffixlen: int): (r: Result<Address>)
    ensures r.Ok? <==> 0 <= suffixlen <= Width(a.version)
    ensures r.Err? ==> r.error == NetmaskError
    ensures r.Ok? ==> r.value.version == a.version
    ensures r.Ok? ==> r.value.bits <= a.bits < r.value.bits + Pow2(suffixlen)
    ensures r.Ok? ==> ClearLow(r.value.bits, suffixlen) == r.value.bits
    ensures r.Ok? && ValidAddress(a) ==> ValidAddress(r.value)
    ensures suffixlen == 0 ==> r == Ok(a)
  {
    if 0 <= suffixlen <= Width(a.version) then
      ClearLowBounds(a.bits, suffixlen);
      ClearLowIdempotent(a.bits, suffixlen);
      Ok(Address(a.version, ClearLow(a.bits, suffixlen)))
    else
      Err(NetmaskError)
  }
}
