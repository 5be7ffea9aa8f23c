/**
 * The prototype example: an Alien can clone itself, and the clone is a new
 * Alien as intelligent as the original.
 */
module Prototype {

  class Alien {
    var intelligence: int

    constructor (intelligence: int)
      ensures this.intelligence == intelligence
    {
      this.intelligence := intelligence;
    }

    /** Alien::clone: a distinct Alien with the same intelligence. */
    method Clone() returns (c: Alien)
      ensures fresh(c)
      ensures c.intelligence == intelligence
    {
      c := new Alien(intelligence);
    }
  }

  /** The demo: alien2 clones alien1 and alien3 clones alien2, and all three
      are equally intelligent. */
  method CloneTwice() returns (first: int, second: int, third: int)
    ensures first == second == third == 300
  {
    var alien1 := new Alien(300);
    var alien2 := alien1.Clone();
    var alien3 := alien2.Clone();
    first, second, third := alien1.intelligence, alien2.intelligence, alien3.intelligence;
  }
}
