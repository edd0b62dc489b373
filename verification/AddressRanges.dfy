/** The networks that rules name by prefix, as ranges of addresses. */
module AddressRanges {
  import opened Addresses

  lemma {:induction false} PowSplits(a: nat, b: nat)
    ensures Pow2(a + b) == Pow2(a) * Pow2(b)
  {
    if a > 0 {
      PowSplits(a - 1, b);
      assert Pow2(a + b) == 2 * Pow2((a - 1) + b);
    }
  }

  lemma SmallPowers()
    ensures Pow2(6) == 0x40 && Pow2(8) == 0x100 && Pow2(16) == 0x1_0000 && Pow2(20) == 0x10_0000
    ensures Pow2(22) == 0x40_0000 && Pow2(24) == 0x100_0000 && Pow2(9) == 0x200
  {
    assert Pow2(1) == 2 && Pow2(2) == 4;
    PowSplits(2, 2);
    PowSplits(4, 2);
    PowSplits(4, 4);
    PowSplits(8, 1);
    PowSplits(8, 8);
    PowSplits(16, 4);
    PowSplits(16, 6);
    PowSplits(16, 8);
  }

  lemma Quotient(a: int, n: int, q: int, r: int)
    requires n > 0 && a == q * n + r && 0 <= r < n
    ensures a / n == q
  {
    var d := a / n - q;
    assert d * n == r - a % n;
    assert d >= 1 ==> d * n >= n;
    assert d <= -1 ==> d * n <= -n;
  }

  lemma BlockOf(x: int, size: int, block: int)
    requires size > 0
    ensures x / size == block <==> block * size <= x < block * size + size
  {
    if block * size <= x < block * size + size {
      Quotient(x, size, block, x - block * size);
    } else {
      assert x == (x / size) * size + x % size;
    }
  }

  /** A prefix whose base starts a block of its size is the range of that block. */
  lemma PrefixIsRange(prefix: Prefix, block: nat, address: Address)
    requires prefix.base.bits == block * Pow2(prefix.free)
    ensures Contains(prefix, address) <==>
            && prefix.base.V4? == address.V4?
            && prefix.base.bits <= address.bits < prefix.base.bits + Pow2(prefix.free)
  {
    hide Pow2;
    var size := Pow2(prefix.free);
    BlockOf(prefix.base.bits, size, block);
    BlockOf(address.bits, size, block);
  }

  /** From a.b.0.0 on, for `size` addresses. */
  predicate InRange4(address: Address, first: nat, size: nat) {
    address.V4? && first <= address.bits < first + size
  }

  /** From the address whose first sixteen bits are `first`, up to the one whose first sixteen bits are `beyond`. */
  predicate InRange6(address: Address, first: nat, beyond: nat) {
    address.V6? && first * Pow2(112) <= address.bits < beyond * Pow2(112)
  }

  lemma Range4(a: nat, b: nat, length: nat, block: nat, address: Address)
    requires length <= 32 && a * 0x100_0000 + b * 0x1_0000 == block * Pow2(32 - length)
    ensures Contains(Net4(a, b, length), address) <==>
            InRange4(address, a * 0x100_0000 + b * 0x1_0000, Pow2(32 - length))
  {
    PrefixIsRange(Net4(a, b, length), block, address);
  }

  lemma Range6(first: nat, length: nat, block: nat, size: nat, address: Address)
    requires length <= 16 && size == Pow2(16 - length) && first == block * size
    ensures Contains(Net6(first, length), address) <==> InRange6(address, first, first + size)
  {
    hide Pow2;
    var unit := Pow2(112);
    PowSplits(16 - length, 112);
    Distribute(block, size, unit);
    PrefixIsRange(Net6(first, length), block, address);
  }

  lemma Distribute(block: nat, size: nat, unit: nat)
    ensures (block * size) * unit == block * (size * unit)
    ensures (block * size + size) * unit == (block * size) * unit + size * unit
  {
  }

  /** 10.0.0.0/8, 172.16.0.0/12, 192.168.0.0/16, 169.254.0.0/16 and 100.64.0.0/10. */
  predicate IsLan4(address: Address) {
    || InRange4(address, 0x0A00_0000, 0x100_0000)
    || InRange4(address, 0xAC10_0000, 0x10_0000)
    || InRange4(address, 0xC0A8_0000, 0x1_0000)
    || InRange4(address, 0xA9FE_0000, 0x1_0000)
    || InRange4(address, 0x6440_0000, 0x40_0000)
  }

  /** fe80:: to febf:ffff… and fc00:: to fdff:ffff…. */
  predicate IsLan6(address: Address) {
    InRange6(address, 0xFE80, 0xFEC0) || InRange6(address, 0xFC00, 0xFE00)
  }

  lemma Lan4Means(address: Address)
    ensures IsLan4(address) <==>
            || Contains(Net4(10, 0, 8), address) || Contains(Net4(172, 16, 12), address)
            || Contains(Net4(192, 168, 16), address) || Contains(Net4(169, 254, 16), address)
            || Contains(Net4(100, 64, 10), address)
  {
    SmallPowers();
    hide Contains, Pow2;
    Range4(10, 0, 8, 10, address);
    Range4(172, 16, 12, 0xAC1, address);
    Range4(192, 168, 16, 0xC0A8, address);
    Range4(169, 254, 16, 0xA9FE, address);
    Range4(100, 64, 10, 0x191, address);
  }

  lemma Lan6Means(address: Address)
    ensures IsLan6(address) <==> Contains(Net6(0xFE80, 10), address) || Contains(Net6(0xFC00, 7), address)
  {
    SmallPowers();
    hide Contains, Pow2;
    Range6(0xFE80, 10, 0x3FA, 0x40, address);
    Range6(0xFC00, 7, 0x7E, 0x200, address);
  }

  lemma LoopbackMeans(address: Address)
    ensures Contains(Net4(127, 0, 8), address) <==> InRange4(address, 0x7F00_0000, 0x100_0000)
  {
    SmallPowers();
    hide Contains, Pow2;
    Range4(127, 0, 8, 127, address);
  }
}
