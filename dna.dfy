/**
 * Kitty dna: 16 bytes. Breeding multiplexes the two parents' bytes under a
 * random selector, and the lowest bit of byte 0 is the kitty's gender.
 */
module Dna {

  type Byte = bv8

  type Dna = s: seq<Byte> | |s| == 16 witness seq(16, i => 0 as Byte)

  /** Bit `i` of a byte, as 0 or 1. */
  function Bit(x: Byte, i: Byte): Byte
    requires i < 8
  {
    (x >> i) & 1
  }

  /** One byte of a child: `(a & sel) | (b & !sel)`. */
  function Mux(a: Byte, b: Byte, sel: Byte): Byte
  {
    (a & sel) | (b & !sel)
  }

  /**
   * Every bit of `Mux(a, b, sel)` comes from `a` where `sel` is 1 and from
   * `b` where it is 0; so a selector of all ones copies `a` and one of all
   * zeros copies `b`.
   */
  lemma MuxSelectsBits(a: Byte, b: Byte, sel: Byte, i: Byte)
    requires i < 8
    ensures Bit(Mux(a, b, sel), i) == if Bit(sel, i) == 1 then Bit(a, i) else Bit(b, i)
  {
  }

  /** The dna `breed_kitty` produces: byte `i` is `Mux(kitty1[i], kitty2[i], selector[i])`. */
  function ChildDna(kitty1: Dna, kitty2: Dna, selector: Dna): Dna
  {
    seq(16, i requires 0 <= i < 16 => Mux(kitty1[i], kitty2[i], selector[i]))
  }

  /** Identical parents give an identical child, whatever the selector. */
  lemma {:induction false} ChildOfIdenticalParents(k: Dna, selector: Dna)
    ensures ChildDna(k, k, selector) == k
  {
    forall i | 0 <= i < 16 ensures ChildDna(k, k, selector)[i] == k[i] {
      assert ChildDna(k, k, selector)[i] == Mux(k[i], k[i], selector[i]);
    }
  }

  /** Each bit of each child byte comes from the parent the selector bit names. */
  lemma ChildBits(kitty1: Dna, kitty2: Dna, selector: Dna, i: nat, bit: Byte)
    requires i < 16 && bit < 8
    ensures Bit(ChildDna(kitty1, kitty2, selector)[i], bit) ==
            if Bit(selector[i], bit) == 1 then Bit(kitty1[i], bit) else Bit(kitty2[i], bit)
  {
    MuxSelectsBits(kitty1[i], kitty2[i], selector[i], bit);
  }

  /**
   * `breed_kitty`: fills a zeroed 16-byte buffer with the multiplexed bytes of
   * the parents, the selector being the random input of the call.
   */
  method BreedKitty(kitty1: Dna, kitty2: Dna, selector: Dna) returns (child: Dna)
    ensures child == ChildDna(kitty1, kitty2, selector)
  {
    var data := new Byte[16](_ => 0);
    var i := 0;
    while i < 16
      invariant 0 <= i <= 16
      invariant forall j :: 0 <= j < i ==> data[j] == Mux(kitty1[j], kitty2[j], selector[j])
    {
      data[i] := (kitty1[i] & selector[i]) | (kitty2[i] & !selector[i]);
      i := i + 1;
    }
    child := data[..];
  }

  /** The gender bit: the lowest bit of byte 0. */
  function Gender(k: Dna): Byte
  {
    k[0] & 1
  }

  /** `can_breed`: the parents' gender bits differ. */
  function CanBreed(kitty1: Dna, kitty2: Dna): bool
  {
    (kitty1[0] & 1) != (kitty2[0] & 1)
  }

  /**
   * Breeding is allowed exactly between kitties of different genders, in
   * either order, never with itself; so, with one gender bit, among any
   * three kitties some pair cannot breed.
   */
  lemma CanBreedIsGenderMismatch(kitty1: Dna, kitty2: Dna)
    ensures CanBreed(kitty1, kitty2) <==> Gender(kitty1) != Gender(kitty2)
    ensures CanBreed(kitty1, kitty2) == CanBreed(kitty2, kitty1)
    ensures !CanBreed(kitty1, kitty1)
  {
  }
}
