/**
 * The builder example: a director issues the same three building steps to
 * whichever builder it is given, and the product depends only on the
 * builder. A builder's no-op steps are observable as entries of its trace.
 */
module Builder {

  datatype Step = BuildWall | BuildWindow | BuildRoof

  /** RealHouse and ToyHouse. */
  datatype House = RealHouse | ToyHouse

  /** The concrete builders: ConstructionCompany builds a RealHouse, Kid a
      ToyHouse. */
  datatype BuilderKind = ConstructionCompany | Kid

  /** The steps the director issues, in order, whatever the builder. */
  const HouseSteps: seq<Step> := [BuildWall, BuildWindow, BuildRoof]

  class HouseBuilder {
    const kind: BuilderKind
    /** The steps issued to this builder, oldest first. */
    var trace: seq<Step>

    constructor (kind: BuilderKind)
      ensures this.kind == kind && trace == []
    {
      this.kind := kind;
      trace := [];
    }

    method BuildWall()
      modifies this
      ensures trace == old(trace) + [Step.BuildWall]
    {
      trace := trace + [Step.BuildWall];
    }

    method BuildRoof()
      modifies this
      ensures trace == old(trace) + [Step.BuildRoof]
    {
      trace := trace + [Step.BuildRoof];
    }

    method BuildWindow()
      modifies this
      ensures trace == old(trace) + [Step.BuildWindow]
    {
      trace := trace + [Step.BuildWindow];
    }

    /** deliverdResult: the kind of house this builder produces. */
    function DeliveredResult(): (h: House)
      ensures kind.ConstructionCompany? <==> h == RealHouse
      ensures kind.Kid? <==> h == ToyHouse
    {
      match kind
      case ConstructionCompany => RealHouse
      case Kid => ToyHouse
    }
  }

  class Director {
    constructor ()
    {
    }

    /** buildAHouseBy: wall, then window, then roof, on the given builder. */
    method BuildAHouseBy(builder: HouseBuilder)
      modifies builder
      ensures builder.trace == old(builder.trace) + HouseSteps
    {
      builder.BuildWall();
      builder.BuildWindow();
      builder.BuildRoof();
    }
  }

  /** The demo: one director, the same instructions to a kid and to a
      construction company, and a different product from each. */
  method BuildTwoHouses() returns (kidSteps: seq<Step>, companySteps: seq<Step>, toy: House, house: House)
    ensures kidSteps == companySteps == [BuildWall, BuildWindow, BuildRoof]
    ensures toy == ToyHouse && house == RealHouse
  {
    var you := new Director();
    var kid := new HouseBuilder(Kid);
    you.BuildAHouseBy(kid);
    var professional := new HouseBuilder(ConstructionCompany);
    you.BuildAHouseBy(professional);
    kidSteps, companySteps := kid.trace, professional.trace;
    toy, house := kid.DeliveredResult(), professional.DeliveredResult();
  }
}
