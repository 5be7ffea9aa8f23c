/**
 * The abstract-factory example: a computer factory builds a display, a
 * keyboard and a mainboard, and its price is the sum of the three parts'
 * prices. Each part family and the factory family are datatypes whose
 * variants are the concrete classes.
 */
module AbstractFactory {

  datatype Display = FourKDisplay | OfficeHDMonitor
  datatype Keyboard = WirelessGamingKeyboard | OldGoodMechanicalKeyboard
  datatype Mainboard = MultiCoreCPUDedicatedGPUMainboard | GoodEnoughMainboard

  /** Display::price of each concrete display. */
  function DisplayPrice(d: Display): (p: int)
    ensures 0 < p
    ensures d.FourKDisplay? ==> p == 3000
    ensures d.OfficeHDMonitor? ==> p == 100
  {
    match d
    case FourKDisplay => 3000
    case OfficeHDMonitor => 100
  }

  /** Keyboard::price of each concrete keyboard. */
  function KeyboardPrice(k: Keyboard): (p: int)
    ensures 0 < p
    ensures k.WirelessGamingKeyboard? ==> p == 100
    ensures k.OldGoodMechanicalKeyboard? ==> p == 10
  {
    match k
    case WirelessGamingKeyboard => 100
    case OldGoodMechanicalKeyboard => 10
  }

  /** Mainboard::price of each concrete mainboard. */
  function MainboardPrice(m: Mainboard): (p: int)
    ensures 0 < p
    ensures m.MultiCoreCPUDedicatedGPUMainboard? ==> p == 1000
    ensures m.GoodEnoughMainboard? ==> p == 300
  {
    match m
    case MultiCoreCPUDedicatedGPUMainboard => 1000
    case GoodEnoughMainboard => 300
  }

  datatype ComputerFactory = HighEndComputerManufacturer | SustainableComputerMaker

  /** buildDisplay of each concrete factory. */
  function BuildDisplay(f: ComputerFactory): (d: Display)
    ensures f.HighEndComputerManufacturer? <==> d == FourKDisplay
    ensures f.SustainableComputerMaker? <==> d == OfficeHDMonitor
  {
    match f
    case HighEndComputerManufacturer => FourKDisplay
    case SustainableComputerMaker => OfficeHDMonitor
  }

  /** buildKeyboard of each concrete factory. */
  function BuildKeyboard(f: ComputerFactory): (k: Keyboard)
    ensures f.HighEndComputerManufacturer? <==> k == WirelessGamingKeyboard
    ensures f.SustainableComputerMaker? <==> k == OldGoodMechanicalKeyboard
  {
    match f
    case HighEndComputerManufacturer => WirelessGamingKeyboard
    case SustainableComputerMaker => OldGoodMechanicalKeyboard
  }

  /** buildMainboard of each concrete factory. */
  function BuildMainboard(f: ComputerFactory): (m: Mainboard)
    ensures f.HighEndComputerManufacturer? <==> m == MultiCoreCPUDedicatedGPUMainboard
    ensures f.SustainableComputerMaker? <==> m == GoodEnoughMainboard
  {
    match f
    case HighEndComputerManufacturer => MultiCoreCPUDedicatedGPUMainboard
    case SustainableComputerMaker => GoodEnoughMainboard
  }

  /** ComputerFactory::price: the total of the parts the factory builds. */
  function Price(f: ComputerFactory): (p: int)
    ensures f.HighEndComputerManufacturer? ==> p == 3000 + 100 + 1000
    ensures f.SustainableComputerMaker? ==> p == 100 + 10 + 300
  {
    DisplayPrice(BuildDisplay(f)) + KeyboardPrice(BuildKeyboard(f)) + MainboardPrice(BuildMainboard(f))
  }

  /** Every part the high-end manufacturer builds costs more than the one the
      sustainable maker builds in its place, and so does the whole computer:
      the demo's check. */
  lemma HighEndCostsMore()
    ensures DisplayPrice(BuildDisplay(HighEndComputerManufacturer)) > DisplayPrice(BuildDisplay(SustainableComputerMaker))
    ensures KeyboardPrice(BuildKeyboard(HighEndComputerManufacturer)) > KeyboardPrice(BuildKeyboard(SustainableComputerMaker))
    ensures MainboardPrice(BuildMainboard(HighEndComputerManufacturer)) > MainboardPrice(BuildMainboard(SustainableComputerMaker))
    ensures Price(HighEndComputerManufacturer) > Price(SustainableComputerMaker)
  {
  }
}
