/** Classification bits carried by opcode-table entries and decoded lines (a u32 bitmask). */
module Flags {

  const UninitializedOpcode: bv32 := 0
  const ValidOpcode: bv32 := 1
  const UndocOpcode: bv32 := 1 << 2
  const BranchOpcode: bv32 := 1 << 3
  const SubroutineOpcode: bv32 := 1 << 4
  const JmpOpcode: bv32 := 1 << 5
  const InvalidOpcode: bv32 := 1 << 6
  const DataFlag: bv32 := 1 << 7
  const LoadFlag: bv32 := 1 << 8
  const StoreFlag: bv32 := 1 << 9
  const IndirectFlag: bv32 := 1 << 10

  /** The ten assigned flags, in declaration order. */
  const AllFlags: seq<bv32> :=
    [ValidOpcode, UndocOpcode, BranchOpcode, SubroutineOpcode, JmpOpcode,
     InvalidOpcode, DataFlag, LoadFlag, StoreFlag, IndirectFlag]

  /** `flags` has at least one bit of `mask` set (the source's `flags & mask != 0`). */
  predicate Has(flags: bv32, mask: bv32)
  {
    flags & mask != 0
  }

  // ---------------------------------------------------------------- lemmas

  /** The constants' values: 0 for "uninitialised", then 1, 4, 8, ..., 1024. */
  lemma FlagValues()
    ensures UninitializedOpcode == 0
    ensures AllFlags == [1, 4, 8, 16, 32, 64, 128, 256, 512, 1024]
  {
  }

  /** Each flag is one bit, and bit value 2 belongs to none of them. */
  lemma SingleBits(i: int)
    requires 0 <= i < |AllFlags|
    ensures AllFlags[i] != 0 && AllFlags[i] & (AllFlags[i] - 1) == 0
    ensures AllFlags[i] & 2 == 0
  {
  }

  /** The flags are pairwise disjoint, so testing a flag against the union of two
      others succeeds exactly when it is one of them. */
  lemma UnionTest(i: int, j: int, k: int)
    requires 0 <= i < |AllFlags| && 0 <= j < |AllFlags| && 0 <= k < |AllFlags|
    ensures i != j ==> AllFlags[i] & AllFlags[j] == 0
    ensures Has(AllFlags[i], AllFlags[j] | AllFlags[k]) <==> (i == j || i == k)
  {
  }
}
