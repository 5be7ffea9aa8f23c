# sandbox_cpp core in Dafny

This project models the runtime logic in a collection of short C++ language demos:

- **Algorithm.cpp**: `index_of_max` (std::max_element with std::distance), `all_equal` (std::adjacent_find with std::not_equal_to) and the three-iterator std::mismatch that the demo calls. A vector is a `seq` and an iterator is an offset from `begin()`. Each standard algorithm is a recursive function that follows the library's scan, and each contract states what the scan finds.
- **Sandbox.cpp**: the `Thing` name table, `isFruit` and `addOne`. `isFruit` is a method with a `for` loop that returns early at the first match. `addOne` works over a 32-bit `int32` newtype.
- **Tuple.cpp**: `args_size`, `first_of<N>` and `fisrt_of_impl`. A tuple is a `seq` of a tagged `Value`, with the double kept as an opaque literal. `std::make_index_sequence<N>` is the sequence 0..N-1.
- **DesignPattern.cpp**: five of the pattern examples.
  - Factory method and abstract factory compute values.
  - The builder director and the bridge companies issue fixed sequences of no-op calls. Each receiving object records those calls in a `trace` field.
  - A prototype alien clones itself.

C++ virtual hierarchies become a `kind` datatype on a class, or a datatype whose variants are the concrete classes. The `CHECK`s and `static_assert`s in each demo's `main` become lemmas. Where a CHECK needs methods to run, it becomes a method that builds fresh objects and states the checked values in its `ensures`.

## Model

| member | source | states |
|---|---|---|
| Algorithm.MaxElementFrom | Algorithm.cpp:17 | the std::max_element scan returns an in-range offset whose element is at least every element and greater than every earlier one |
| Algorithm.IndexOfMax | Algorithm.cpp:15-19 | returns 0 on an empty vector; otherwise an index inside the vector holding a largest element, with every earlier element strictly smaller (the first maximum) |
| Algorithm.IndexOfMaxUnique | Algorithm.cpp:17-18 | any index that holds a largest element and has only smaller elements before it equals IndexOfMax, so the contract determines the result |
| Algorithm.IndexOfMaxExample | Algorithm.cpp:38-41 | index_of_max({0,2,3,1,13,5}) is 4 |
| Algorithm.AdjacentFind | Algorithm.cpp:27-28 | returns the first offset whose element differs from its successor, with all earlier adjacent pairs equal, or end() when no pair differs |
| Algorithm.AllEqual | Algorithm.cpp:25-29 | true exactly when no adjacent pair differs |
| Algorithm.AllEqualIffEqualToFirst | Algorithm.cpp:25-29 | all_equal holds iff every element equals the first one; it holds for vectors shorter than two |
| Algorithm.AllEqualExamples | Algorithm.cpp:43-44 | all_equal is false on {0,2,3,1,13,5} and true on {1,1,1} |
| Algorithm.MismatchFrom | Algorithm.cpp:47 | the mismatch scan stops at the first differing position or at the end of the first range, and every position it passes is equal |
| Algorithm.Mismatch | Algorithm.cpp:47 | when the second range is at least as long, returns the first differing offset; the prefixes before it are equal, and it reaches the end iff the first range is a prefix of the second |
| Algorithm.MismatchExample | Algorithm.cpp:46-49 | {0,2,3,1,13,5} and {0,2,3,4,5,6} first differ at offset 3, where the elements are 1 and 4 |
| Sandbox.IsFruit | Sandbox.cpp:19-24 | the early-return scan answers true iff the string is an entry of Thing::Fruit, that is "Apple" or "Kiwi" |
| Sandbox.ThingNames | Sandbox.cpp:11-16 | Thing::Apple is "Apple", Thing::Cat is "Cat", Animal is {"Cat"}, and no animal is a fruit |
| Sandbox.CheckFruits | Sandbox.cpp:31-32 | isFruit("Apple") is true and isFruit("Cat") is false |
| Sandbox.AddOne | Sandbox.cpp:26 | for an int below INT_MAX (no signed overflow), the result is greater than n and subtracting one from it gives back n |
| Sandbox.AddOneIsSuccessor | Sandbox.cpp:26 | addOne(n) is the least int greater than n |
| Sandbox.AddOneExample | Sandbox.cpp:34-35 | addOne(4) is 5, and addOne(addOne(4)) is 6 |
| Tuple.ArgsSize | Tuple.cpp:14-17 | args_size returns the length of the argument pack (sizeof...); the element-by-element count is proved equal to it |
| Tuple.MakeIndexSequence | Tuple.cpp:27 | make_index_sequence<N> has N entries, and entry k is k |
| Tuple.FirstOfImpl | Tuple.cpp:19-22 | the result has one element per index, and element k is the tuple's element at index k of the pack |
| Tuple.FirstOf | Tuple.cpp:24-28 | for N no larger than the tuple's size, the result has length N and element i equals the tuple's element i; it is exactly the length-N prefix |
| Tuple.FirstOfBounds | Tuple.cpp:36-38 | the full-size prefix is the tuple itself and the empty prefix is empty |
| Tuple.FirstOfFirstOf | Tuple.cpp:24-28 | an N-prefix of an M-prefix (N <= M) is the N-prefix of the tuple |
| Tuple.DemoChecks | Tuple.cpp:34-38 | args_size(1, 2.0, "3") is 3; first_of<3> is the tuple, first_of<2> is (1, 2.0), first_of<0> is empty |
| FactoryMethod.HasIdea | DesignPattern.cpp:14-15 | NoleMusk's idea is "Space Program" and LalaLama's is "Peace and Love" |
| FactoryMethod.HasIdeaInjective | DesignPattern.cpp:14-15 | two leaderships have the same idea iff they are the same leadership |
| FactoryMethod.World.constructor | DesignPattern.cpp:301-302 | creating an Apocalypse or a Utopia gives a world of that concrete kind with no calls made on it yet |
| FactoryMethod.World.WithLeadership | DesignPattern.cpp:34-52 | the factory method gives an Apocalypse the NoleMusk leadership and a Utopia the LalaLama leadership |
| FactoryMethod.World.DevelopCulture | DesignPattern.cpp:20 | appends one DevelopCulture(idea) entry to the world's trace |
| FactoryMethod.World.EmbraceNature | DesignPattern.cpp:21 | appends one EmbraceNature(idea) entry to the world's trace |
| FactoryMethod.World.EveryoneCounts | DesignPattern.cpp:22 | appends one EveryoneCounts(idea) entry to the world's trace |
| FactoryMethod.World.FutureBasedOn | DesignPattern.cpp:23-30 | returns the hasIdea of the leadership from withLeadership ("Space Program" for Apocalypse, "Peace and Love" for Utopia), after calling developCulture, embraceNature and everyoneCounts with that idea, in order |
| FactoryMethod.CompareFutures | DesignPattern.cpp:301-303 | an Apocalypse and a Utopia have different futures |
| AbstractFactory.DisplayPrice | DesignPattern.cpp:81-96 | each display has a positive price: the 4K display costs 3000 and the office HD monitor 100 |
| AbstractFactory.KeyboardPrice | DesignPattern.cpp:83-98 | each keyboard has a positive price: the wireless gaming keyboard costs 100 and the mechanical keyboard 10 |
| AbstractFactory.MainboardPrice | DesignPattern.cpp:85-100 | each mainboard has a positive price: the multi-core mainboard costs 1000 and the good-enough mainboard 300 |
| AbstractFactory.BuildDisplay | DesignPattern.cpp:88-102 | the high-end manufacturer, and only it, builds the 4K display; the sustainable maker builds the office HD monitor |
| AbstractFactory.BuildKeyboard | DesignPattern.cpp:89-103 | the high-end manufacturer, and only it, builds the wireless gaming keyboard; the sustainable maker builds the mechanical keyboard |
| AbstractFactory.BuildMainboard | DesignPattern.cpp:90-104 | the high-end manufacturer, and only it, builds the multi-core mainboard; the sustainable maker builds the good-enough mainboard |
| AbstractFactory.Price | DesignPattern.cpp:71-76 | the high-end manufacturer's computer costs 3000+100+1000 and the sustainable maker's costs 100+10+300 |
| AbstractFactory.HighEndCostsMore | DesignPattern.cpp:79-105 | each high-end part costs more than the sustainable part in its place, and the high-end computer costs more than the sustainable one |
| Builder.HouseBuilder.constructor | DesignPattern.cpp:325-328 | declaring a Kid or a ConstructionCompany gives a builder of that concrete kind that has received no steps yet |
| Builder.HouseBuilder.BuildWall | DesignPattern.cpp:116 | appends BuildWall to the builder's trace |
| Builder.HouseBuilder.BuildRoof | DesignPattern.cpp:117 | appends BuildRoof to the builder's trace |
| Builder.HouseBuilder.BuildWindow | DesignPattern.cpp:118 | appends BuildWindow to the builder's trace |
| Builder.HouseBuilder.DeliveredResult | DesignPattern.cpp:119-141 | a construction company delivers a RealHouse and a kid a ToyHouse, and no other builder delivers either |
| Builder.Director.BuildAHouseBy | DesignPattern.cpp:148-154 | appends exactly wall, window, roof, in that order, to any builder's trace |
| Builder.BuildTwoHouses | DesignPattern.cpp:323-333 | the kid and the construction company receive the same three steps, and deliver a ToyHouse and a RealHouse |
| Prototype.Alien.constructor | DesignPattern.cpp:174 | the new alien has the given intelligence |
| Prototype.Alien.Clone | DesignPattern.cpp:169-172 | returns a new alien with the same intelligence |
| Prototype.CloneTwice | DesignPattern.cpp:340-347 | an alien of intelligence 300, its clone and the clone's clone all have intelligence 300 |
| Bridge.Role.constructor | DesignPattern.cpp:368-369 | declaring a TraditionalManager or a RecurrentFounder gives a role of that concrete kind that has performed no acts yet |
| Bridge.Role.TakeRisk | DesignPattern.cpp:217 | appends TakeRisk to the role's trace |
| Bridge.Role.Decide | DesignPattern.cpp:218 | appends Decide to the role's trace |
| Bridge.Role.Discuss | DesignPattern.cpp:219 | appends Discuss to the role's trace |
| Bridge.StartUpCompany.constructor | DesignPattern.cpp:225-238 | the start-up's ceo is the role passed in, the same object and not a copy, so its acts land in the caller's role |
| Bridge.StartUpCompany.MakeDecision | DesignPattern.cpp:240-245 | the CEO takes a risk and then decides, and does nothing else |
| Bridge.StartUpCompany.DevelopStrategy | DesignPattern.cpp:246-250 | the CEO takes one risk and does nothing else |
| Bridge.LargeCompany.constructor | DesignPattern.cpp:256 | the large company's ceo is the role passed in, the same object and not a copy (bound through Company's reference member at DesignPattern.cpp:225) |
| Bridge.LargeCompany.MakeDecision | DesignPattern.cpp:258-263 | the CEO discusses and then decides, and does nothing else |
| Bridge.LargeCompany.DevelopStrategy | DesignPattern.cpp:264-268 | the CEO discusses once and does nothing else |
| Bridge.SwappedRoles | DesignPattern.cpp:366-373 | with the roles swapped, the manager-led start-up's CEO acts take-risk, decide, take-risk, and the founder-led large firm's CEO acts discuss, decide, discuss: the acts follow the company, not the role |

## Left out

- Vector element type: `index_of_max` is modelled on `int` elements only, the type the demo uses. The template works for any type with `operator<`.
- Sandbox.AddOne: requires n < INT_MAX because `n+1` overflows a signed `int` at INT_MAX. That is undefined behaviour in C++ and a compile error in a constant expression. The model states no result for that input.
- Sandbox's second `addOne(val)` call is not a constant expression; the model treats it as the same function.
- Algorithm.Mismatch: requires |a| <= |b| because the three-iterator std::mismatch reads the second range as far as the first one extends, and a shorter second range is undefined behaviour; the demo's two ranges have equal length.
- Algorithm.MismatchFrom: requires |a| <= |b| for the same reason.
- Ownership and destruction: the `unique_ptr` objects that `withLeadership()`, `buildDisplay()`, `buildKeyboard()` and `buildMainboard()` allocate, and their destruction, are not modelled; the model works with the values they carry. `Leadership`, `World`, `Display`, `Keyboard` and `Mainboard` have virtual functions but no virtual destructor, so deleting a derived object through the `unique_ptr` to its base (DesignPattern.cpp:25, 73-75, 301-302) is formally undefined behaviour in C++; the model does not capture this.
- Tuple: the double `2.0` is an opaque literal, with no floating-point arithmetic. The `"3"` element is compared as a string, not as a `const char*` pointer. The `static_assert` of `first_of` (a compile-time rejection) is a `requires`.
- Builder's `ConstructionCompany` and `Kid` are one class with a `kind`, and the bridge's two roles likewise, because Dafny traits are not used here. Dynamic dispatch is a `match` on that kind.
- Bridge.SwappedRoles: the demo only constructs the two companies. This method also calls their operations, to show the call sequences with swapped roles.
- Singleton (DesignPattern.cpp:180-201): object identity through a function-local static has no counterpart here.
- Adapter and Composite (DesignPattern.cpp:203-206, 288-291): empty placeholders.
- The `CHECK`, `CHECK_VALUE` and `RUN_TEST` macros in main.h and the dispatcher in main.cpp write to the console and call `exit`. Their checks are the lemmas and scenario methods above.
- UniversalReference.cpp, MostVexingParse.cpp, TemplateFunction.cpp, FunctionTemplate.cpp, Template.cpp: compile-time overload resolution, reference collapsing, parsing and template deduction, with no runtime contract.
- FunctionPointer.cpp: its only computation is a floating-point product truncated to `int`.
- Polymorphism.cpp: pointer versus reference virtual dispatch that returns two constant strings.
- TypeErasure.cpp: a type-system and ownership mechanism (templates, perfect forwarding, `shared_ptr`). Its only behaviour is forwarding a call to the stored callable, and its demo lambdas print to the console.
