/**
 * The factory-method example: a World whose future is decided by whichever
 * Leadership its factory method produces. The two concrete worlds and the
 * two leaderships are variants of a datatype; the world's three no-op
 * developments are observable only as entries of its call trace.
 */
module FactoryMethod {

  datatype Leadership = NoleMusk | LalaLama

  /** Leadership::hasIdea. */
  function HasIdea(l: Leadership): (idea: string)
    ensures l.NoleMusk? ==> idea == "Space Program"
    ensures l.LalaLama? ==> idea == "Peace and Love"
  {
    match l
    case NoleMusk => "Space Program"
    case LalaLama => "Peace and Love"
  }

  /** Different leaderships have different ideas. */
  lemma HasIdeaInjective(l: Leadership, m: Leadership)
    ensures HasIdea(l) == HasIdea(m) <==> l == m
  {
  }

  /** The concrete subclasses of World. */
  datatype WorldKind = Apocalypse | Utopia

  /** A call World::futureBasedOn makes on itself. */
  datatype Development =
    | DevelopCulture(idea: string)
    | EmbraceNature(idea: string)
    | EveryoneCounts(idea: string)

  class World {
    const kind: WorldKind
    /** The calls made on this world, oldest first. */
    var trace: seq<Development>

    constructor (kind: WorldKind)
      ensures this.kind == kind && trace == []
    {
      this.kind := kind;
      trace := [];
    }

    /** withLeadership, the factory method each concrete world overrides. */
    function WithLeadership(): (l: Leadership)
      ensures kind.Apocalypse? ==> l == NoleMusk
      ensures kind.Utopia? ==> l == LalaLama
    {
      match kind
      case Apocalypse => NoleMusk
      case Utopia => LalaLama
    }

    method DevelopCulture(idea: string)
      modifies this
      ensures trace == old(trace) + [Development.DevelopCulture(idea)]
    {
      trace := trace + [Development.DevelopCulture(idea)];
    }

    method EmbraceNature(idea: string)
      modifies this
      ensures trace == old(trace) + [Development.EmbraceNature(idea)]
    {
      trace := trace + [Development.EmbraceNature(idea)];
    }

    method EveryoneCounts(idea: string)
      modifies this
      ensures trace == old(trace) + [Development.EveryoneCounts(idea)]
    {
      trace := trace + [Development.EveryoneCounts(idea)];
    }

    /** futureBasedOn: the idea of the world's own leadership, after the world
        has developed its culture, embraced nature and let everyone count on
        that idea, in that order. */
    method FutureBasedOn() returns (idea: string)
      modifies this
      ensures idea == HasIdea(WithLeadership())
      ensures kind.Apocalypse? ==> idea == "Space Program"
      ensures kind.Utopia? ==> idea == "Peace and Love"
      ensures trace == old(trace) + [Development.DevelopCulture(idea),
                                     Development.EmbraceNature(idea),
                                     Development.EveryoneCounts(idea)]
    {
      idea := HasIdea(WithLeadership());
      DevelopCulture(idea);
      EmbraceNature(idea);
      EveryoneCounts(idea);
    }
  }

  /** The demo's check: an Apocalypse and a Utopia have different futures. */
  method CompareFutures() returns (future: string, anotherFuture: string)
    ensures future == "Space Program" && anotherFuture == "Peace and Love"
    ensures future != anotherFuture
  {
    var world := new World(Apocalypse);
    var anotherWorld := new World(Utopia);
    future := world.FutureBasedOn();
    anotherFuture := anotherWorld.FutureBasedOn();
  }
}
