/** IPv4 addresses as four octets, and the test `IsPublicIP` applies before an
    address may be published as a DNS A record (main.go:50-67). */
module Ipv4 {

  /** One byte of an address. */
  type Octet = x: int | 0 <= x < 256

  /** The dotted quad a.b.c.d. */
  datatype Address = Address(a: Octet, b: Octet, c: Octet, d: Octet)

  /** `IsLoopback` for IPv4: 127.0.0.0/8 (section 3.2.1.3 of RFC 1122). */
  predicate IsLoopback(ip: Address) {
    ip.a == 127
  }

  /** `IsLinkLocalUnicast` for IPv4: 169.254.0.0/16 (section 1 of RFC 3927). */
  predicate IsLinkLocalUnicast(ip: Address) {
    ip.a == 169 && ip.b == 254
  }

  /** `IsLinkLocalMulticast` for IPv4: 224.0.0.0/24 (section 4 of RFC 5771). */
  predicate IsLinkLocalMulticast(ip: Address) {
    ip.a == 224 && ip.b == 0 && ip.c == 0
  }

  /** `IsPublicIP`: the special-purpose test first, then the switch over the
      three private blocks; everything else is public. */
  predicate IsPublic(ip: Address) {
    if IsLoopback(ip) || IsLinkLocalUnicast(ip) || IsLinkLocalMulticast(ip) then false
    else if ip.a == 10 then false
    else if ip.a == 172 && ip.b >= 16 && ip.b <= 31 then false
    else if ip.a == 192 && ip.b == 168 then false
    else true
  }

  // ---------------------------------------------------------------------------
  // Reference definition: the rejected addresses as CIDR blocks over the
  // 32-bit value of the address.

  /** The address as an unsigned 32-bit number, most significant octet first. */
  function ToU32(ip: Address): (n: nat)
    ensures n < 0x1_0000_0000
  {
    ip.a * 0x100_0000 + ip.b * 0x1_0000 + ip.c * 0x100 + ip.d
  }

  function Pow2(k: nat): nat {
    if k == 0 then 1 else 2 * Pow2(k - 1)
  }

  /** A network prefix `base/prefixLen`. */
  datatype Block = Block(base: Address, prefixLen: nat)

  predicate WellFormedBlock(blk: Block) {
    blk.prefixLen <= 32
  }

  /** Number of addresses a block holds. */
  function BlockSize(blk: Block): nat
    requires WellFormedBlock(blk)
  {
    Pow2(32 - blk.prefixLen)
  }

  /** `ip` lies in the block: its value is in [base, base + size). */
  predicate InBlock(ip: Address, blk: Block)
    requires WellFormedBlock(blk)
  {
    ToU32(blk.base) <= ToU32(ip) < ToU32(blk.base) + BlockSize(blk)
  }

  /** The blocks `IsPublicIP` rejects: loopback, link-local unicast, link-local
      multicast, and the three private blocks of section 3 of RFC 1918. */
  const RejectedBlocks: seq<Block> := [
    Block(Address(127, 0, 0, 0), 8),
    Block(Address(169, 254, 0, 0), 16),
    Block(Address(224, 0, 0, 0), 24),
    Block(Address(10, 0, 0, 0), 8),
    Block(Address(172, 16, 0, 0), 12),
    Block(Address(192, 168, 0, 0), 16)
  ]

  predicate InAnyRejectedBlock(ip: Address) {
    exists i :: 0 <= i < |RejectedBlocks| && InBlock(ip, RejectedBlocks[i])
  }

  lemma Pow2Values()
    ensures Pow2(8) == 0x100 && Pow2(16) == 0x1_0000
    ensures Pow2(20) == 0x10_0000 && Pow2(24) == 0x100_0000
  {
  }

  /** `IsPublicIP` accepts an address exactly when it lies in none of the
      rejected blocks. */
  lemma IsPublicIffOutsideRejectedBlocks(ip: Address)
    ensures IsPublic(ip) <==> !InAnyRejectedBlock(ip)
  {
    Pow2Values();
    assert InBlock(ip, RejectedBlocks[0]) <==> IsLoopback(ip);
    assert InBlock(ip, RejectedBlocks[1]) <==> IsLinkLocalUnicast(ip);
    assert InBlock(ip, RejectedBlocks[2]) <==> IsLinkLocalMulticast(ip);
    assert InBlock(ip, RejectedBlocks[3]) <==> ip.a == 10;
    assert InBlock(ip, RejectedBlocks[4]) <==> ip.a == 172 && 16 <= ip.b <= 31;
    assert InBlock(ip, RejectedBlocks[5]) <==> ip.a == 192 && ip.b == 168;
  }

  /** Loopback and link-local addresses are never public. */
  lemma SpecialPurposeNotPublic(ip: Address)
    requires IsLoopback(ip) || IsLinkLocalUnicast(ip) || IsLinkLocalMulticast(ip)
    ensures !IsPublic(ip)
  {
  }

  /** Among 172.x.y.z, exactly 172.16.0.0 through 172.31.255.255 are rejected. */
  lemma Private172Exactly(ip: Address)
    requires ip.a == 172
    ensures !IsPublic(ip) <==> 16 <= ip.b <= 31
  {
  }

  /** Addresses the test lets through, including some a stricter filter would
      refuse: the unspecified address, broadcast and shared address space. */
  lemma PublicExamples()
    ensures IsPublic(Address(203, 0, 113, 7))
    ensures IsPublic(Address(172, 15, 0, 1)) && IsPublic(Address(172, 32, 0, 1))
    ensures IsPublic(Address(224, 0, 1, 1)) && IsPublic(Address(169, 253, 0, 1))
    ensures IsPublic(Address(0, 0, 0, 0)) && IsPublic(Address(255, 255, 255, 255))
    ensures IsPublic(Address(100, 64, 0, 1))
    ensures !IsPublic(Address(10, 0, 0, 5)) && !IsPublic(Address(192, 168, 1, 1))
  {
  }
}
