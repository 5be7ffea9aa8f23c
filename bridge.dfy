/**
 * The bridge example: companies and roles are separate hierarchies; a
 * company acts only through the role of its CEO, whatever that role is.
 * A role's no-op business acts are observable as entries of its trace.
 */
module Bridge {

  datatype Act = TakeRisk | Decide | Discuss

  /** The concrete roles: RecurrentFounder and TraditionalManager. */
  datatype RoleKind = RecurrentFounder | TraditionalManager

  class Role {
    const kind: RoleKind
    /** The acts this role has performed, oldest first. */
    var trace: seq<Act>

    constructor (kind: RoleKind)
      ensures this.kind == kind && trace == []
    {
      this.kind := kind;
      trace := [];
    }

    method TakeRisk()
      modifies this
      ensures trace == old(trace) + [Act.TakeRisk]
    {
      trace := trace + [Act.TakeRisk];
    }

    method Decide()
      modifies this
      ensures trace == old(trace) + [Act.Decide]
    {
      trace := trace + [Act.Decide];
    }

    method Discuss()
      modifies this
      ensures trace == old(trace) + [Act.Discuss]
    {
      trace := trace + [Act.Discuss];
    }
  }

  /** A start-up: its CEO takes risks. */
  class StartUpCompany {
    const ceo: Role

    constructor (ceo: Role)
      ensures this.ceo == ceo
    {
      this.ceo := ceo;
    }

    /** A quick decision: take a risk, then decide. */
    method MakeDecision()
      modifies ceo
      ensures ceo.trace == old(ceo.trace) + [TakeRisk, Decide]
    {
      ceo.TakeRisk();
      ceo.Decide();
    }

    /** Strategy is finding a niche: one risk taken. */
    method DevelopStrategy()
      modifies ceo
      ensures ceo.trace == old(ceo.trace) + [TakeRisk]
    {
      ceo.TakeRisk();
    }
  }

  /** A large company: its CEO discusses first. */
  class LargeCompany {
    const ceo: Role

    constructor (ceo: Role)
      ensures this.ceo == ceo
    {
      this.ceo := ceo;
    }

    /** A decision after discussion: discuss, then decide. */
    method MakeDecision()
      modifies ceo
      ensures ceo.trace == old(ceo.trace) + [Discuss, Decide]
    {
      ceo.Discuss();
      ceo.Decide();
    }

    /** Strategy is more discussion. */
    method DevelopStrategy()
      modifies ceo
      ensures ceo.trace == old(ceo.trace) + [Discuss]
    {
      ceo.Discuss();
    }
  }

  /** The demo's swapped roles: a start-up led by a traditional manager and a
      large firm led by a recurrent founder, each deciding and then
      developing a strategy. The acts depend on the company, not the role. */
  method SwappedRoles() returns (managerActs: seq<Act>, founderActs: seq<Act>)
    ensures managerActs == [TakeRisk, Decide, TakeRisk]
    ensures founderActs == [Discuss, Decide, Discuss]
  {
    var oldGoodManager := new Role(TraditionalManager);
    var youngFounder := new Role(RecurrentFounder);
    var startup := new StartUpCompany(oldGoodManager);
    var conventionalFirm := new LargeCompany(youngFounder);
    startup.MakeDecision();
    startup.DevelopStrategy();
    conventionalFirm.MakeDecision();
    conventionalFirm.DevelopStrategy();
    managerActs, founderActs := oldGoodManager.trace, youngFounder.trace;
  }
}
