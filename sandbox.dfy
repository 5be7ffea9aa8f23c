/**
 * The `Thing` name table, the fruit membership test over it, and the
 * integer successor of the sandbox demo.
 */
module Sandbox {

  const Apple: string := "Apple"
  const Kiwi: string := "Kiwi"
  const Cat: string := "Cat"

  /** Thing::Fruit and Thing::Animal, in declaration order. */
  const Fruit: seq<string> := [Apple, Kiwi]
  const Animal: seq<string> := [Cat]

  /** isFruit: a range-for over Thing::Fruit that returns true at the first
      entry equal to `str`, and false only once the whole table is scanned. */
  method IsFruit(str: string) returns (found: bool)
    ensures found <==> str in Fruit
    ensures found <==> str == Apple || str == Kiwi
  {
    for i := 0 to |Fruit|
      invariant forall j :: 0 <= j < i ==> Fruit[j] != str
    {
      if str == Fruit[i] {
        return true;
      }
    }
    return false;
  }

  /** The named constants hold the spellings the demo compares them with,
      and the only animal is not a fruit. */
  lemma ThingNames()
    ensures Apple == "Apple" && Cat == "Cat"
    ensures Animal == ["Cat"]
    ensures forall a :: a in Animal ==> a !in Fruit
  {
  }

  /** The two static_asserts of the demo: "Apple" is a fruit, "Cat" is not. */
  method CheckFruits() returns (apple: bool, cat: bool)
    ensures apple && !cat
  {
    apple := IsFruit("Apple");
    cat := IsFruit("Cat");
  }

  /** The C++ `int` the demo computes with: 32 bits, two's complement. */
  newtype int32 = x: int | -0x8000_0000 <= x < 0x8000_0000

  const INT_MAX: int32 := 0x7fff_ffff

  /** addOne: the successor of `n`. Signed overflow is undefined behaviour, so
      a caller must not pass INT_MAX. */
  function AddOne(n: int32): (r: int32)
    requires n < INT_MAX
    ensures n < r && r - 1 == n
  {
    n + 1
  }

  /** AddOne(n) is the least int32 above n. */
  lemma AddOneIsSuccessor(n: int32, m: int32)
    requires n < INT_MAX
    ensures n < m <==> AddOne(n) <= m
  {
  }

  /** The demo's `val` and `val2`. */
  lemma AddOneExample()
    ensures AddOne(4) == 5 && AddOne(AddOne(4)) == 6
  {
  }
}
