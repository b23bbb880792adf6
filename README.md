# Fluent pizza builders

A model of the three fluent "pizza" builders in `creational/Builder.cpp`, one
per language era. Each builder accumulates a `Specs` record (a crust, a size
in centimetres that defaults to 32, and an ordered list of toppings) and
`build()` copies that record into an immutable `Pizza`.

- `PizzaSpecs` (`pizza_specs.dfy`): the `Specs` record and the `Pizza`
  product, which all three programs declare alike. It also holds `Step`, a
  description of one fluent call, and `Run`, the effect of a chain of calls.
  The lemmas here say what a chain does: which field each step writes, that
  the last `crust`/`size` call wins, that toppings keep call order or are
  replaced wholesale, and that calls on different fields commute.
- `Builder17` (`builder17.dfy`): the C++17 builder. It is a class whose
  methods overwrite or append to its `specs` field in place and return the
  same builder.
- `Builder20` (`builder20.dfy`): the C++20 builder. It is the same kind of
  class, except that `toppings(range)` replaces the whole list and there is
  no `addTopping`.
- `Builder23` (`builder23.dfy`): the C++23 builder. Its steps take the
  builder by value, so it is a datatype and each step is a function. The
  receiver is never changed. `build()` returns an error when the crust is
  empty.

Two behaviours of the code are worth stating plainly:

- The C++17 and C++20 builders build a pizza from whatever they hold,
  including an empty crust. Only the C++23 builder refuses an empty crust.
- The model gives `size` no range check in any of the three builders.

## Model

| member | source | states |
|---|---|---|
| `PizzaSpecs.Apply` | creational/Builder.cpp:43-45 | a step writes only its own field: crust and size are overwritten, `addTopping` appends, `toppings(range)` replaces the list |
| `PizzaSpecs.RunConcat` | creational/Builder.cpp:59-64 | a chain of calls split in two gives the same specs as running the first part and then the second |
| `PizzaSpecs.RunSnoc` | creational/Builder.cpp:59-64 | one more call at the end of a chain acts on the specs the rest of the chain produced |
| `PizzaSpecs.RunFrame` | creational/Builder.cpp:43-45 | a field that no step of a chain writes keeps its value through the whole chain |
| `PizzaSpecs.LastCrustWins` | creational/Builder.cpp:43 | after a chain, the crust is the argument of the last `crust` call |
| `PizzaSpecs.LastSizeWins` | creational/Builder.cpp:44 | after a chain, the size is the argument of the last `size` call |
| `PizzaSpecs.ToppingsInCallOrder` | creational/Builder.cpp:45 | without `toppings(range)`, the toppings are the initial ones followed by every appended topping in call order |
| `PizzaSpecs.ToppingsReplaced` | creational/Builder.cpp:102-105 | after `toppings(range)`, the list is exactly the range followed by later appends; earlier toppings are gone |
| `PizzaSpecs.SwapIndependent` | creational/Builder.cpp:43-45 | two adjacent calls that write different fields can be swapped without changing the result of the chain |
| `Builder17.Builder.constructor` | creational/Builder.cpp:31-35 | a new builder has an empty crust, size 32 and no toppings |
| `Builder17.Builder.Crust` | creational/Builder.cpp:43 | sets the crust, keeps size and toppings, returns the same builder |
| `Builder17.Builder.Size` | creational/Builder.cpp:44 | sets the size, keeps crust and toppings, returns the same builder |
| `Builder17.Builder.AddTopping` | creational/Builder.cpp:45 | appends the topping as the new last element, keeps every earlier topping in place and keeps crust and size; returns the same builder |
| `Builder17.Builder.Build` | creational/Builder.cpp:46 | the pizza's specs equal the builder's field for field, and the builder is not modified |
| `Builder17.Margherita` | creational/Builder.cpp:59-64 | the chain in `main` yields crust "Neapolitan", size 30, toppings ["Tomato", "Mozzarella"] |
| `Builder17.Do` | creational/Builder.cpp:43-45 | each call offered by this builder changes its specs as that step's `Apply` does |
| `Builder17.Perform` | creational/Builder.cpp:59-64 | any chain of `crust`, `size` and `addTopping` calls leaves the builder with the specs `Run` gives, so the chain lemmas hold of this builder |
| `Builder17.DefaultSize` | creational/Builder.cpp:33 | a fresh builder given any chain without a `size` call builds a 32 cm pizza whose toppings are the added ones in call order |
| `Builder17.BuildTwice` | creational/Builder.cpp:46 | steps taken after `build()` do not reach the pizza already built; a second build sees them |
| `Builder20.Builder.constructor` | creational/Builder.cpp:85-89 | a new builder has an empty crust, size 32 and no toppings |
| `Builder20.Builder.Crust` | creational/Builder.cpp:96 | sets the crust, keeps size and toppings, returns the same builder |
| `Builder20.Builder.Size` | creational/Builder.cpp:97-98 | sets the size (no range is enforced), keeps crust and toppings, returns the same builder |
| `Builder20.Builder.Toppings` | creational/Builder.cpp:100-105 | the topping list becomes exactly the range in order; crust and size are kept |
| `Builder20.Builder.Build` | creational/Builder.cpp:107 | the pizza's specs equal the builder's field for field, and the builder is not modified |
| `Builder20.Do` | creational/Builder.cpp:96-105 | each call offered by this builder changes its specs as that step's `Apply` does |
| `Builder20.Perform` | creational/Builder.cpp:121-125 | any chain of `crust`, `size` and `toppings` calls leaves the builder with the specs `Run` gives |
| `Builder20.DefaultSize` | creational/Builder.cpp:87 | a fresh builder given any chain without a `size` call builds a 32 cm pizza, with no toppings if `toppings` is never called |
| `Builder20.Hawaiian` | creational/Builder.cpp:119-126 | `hawaiian()` yields crust "Pan", size 40, toppings ["Ham", "Pineapple"], so exactly 2 toppings |
| `Builder20.ToppingsOverwrite` | creational/Builder.cpp:103 | a second `toppings(range)` call discards the first range completely |
| `Builder23.Builder.Crust` | creational/Builder.cpp:158-161 | the returned copy has the new crust and the receiver's size and toppings |
| `Builder23.Builder.Size` | creational/Builder.cpp:162-165 | the returned copy has the new size and the receiver's crust and toppings |
| `Builder23.Builder.Add` | creational/Builder.cpp:166-169 | the returned copy has the topping appended after the receiver's toppings, in order, and the receiver's crust and size |
| `Builder23.Builder.Build` | creational/Builder.cpp:170-175 | fails with "crust type required" exactly when the crust is empty; otherwise the pizza has the builder's specs |
| `Builder23.Builder.Then` | creational/Builder.cpp:157-169 | each step offered by this builder changes its specs as that step's `Apply` does |
| `Builder23.Builder.Chain` | creational/Builder.cpp:189-197 | a chain of steps on a builder value gives the specs that running those steps in order gives |
| `Builder23.NoCrustNoPizza` | creational/Builder.cpp:172-173 | a chain from a fresh builder that never sets the crust always fails to build |
| `Builder23.CrustThenBuild` | creational/Builder.cpp:170-175 | setting a non-empty crust and then building succeeds with that crust, whatever non-crust steps follow |
| `Builder23.DefaultSizeWhenUnset` | creational/Builder.cpp:148 | a chain from a fresh builder with no `size` call gives size 32 |
| `Builder23.ToppingsAreAdds` | creational/Builder.cpp:166-169 | from a fresh builder, the toppings are exactly the `add` arguments in call order |
| `Builder23.Quattro` | creational/Builder.cpp:189-197 | the chain in `main` builds successfully: crust "Roman", size 33 and the four cheeses in order, so 4 toppings |

## Left out

- `main` and console output (`std::cout`, `std::println`): these are I/O only. The pizzas they build are modelled by `Margherita`, `Hawaiian` and `Quattro`.
- Compile-time evaluation (`constexpr`, `consteval`, `static_assert`). As written, the two usage chains would not compile. `constexpr auto p = hawaiian();` at line 129 and `constexpr Pizza quattro = …` at line 189 would keep a `std::vector` allocation past constant evaluation. The C++23 `crust`, `size`, `add` and `Pizza(const Specs&)` are not `constexpr` either. `Builder20.Hawaiian` and `Builder23.Quattro` model the values these chains are evidently meant to produce. The C++23 `build()` is `consteval`, so its `throw` makes the program ill-formed rather than raising at run time. The model returns `Err(CrustTypeRequired)` for it.
- The `InRange<20, 60>` concept on the C++20 `size` (line 97). Its first parameter is an `int`, not a type, so using it as a type constraint looks ill-formed. Even if it were accepted, it would only ask that the comparison be well-formed, not true. The model gives `size` no range check.
- `std::string` versus `std::string_view`, their lifetimes and aliasing, `std::move`, and the `std::ranges` type requirements: these are C++ resource and type details. Strings are `seq<char>` and a range is a `seq<string>`.
- The private `Pizza(const Specs&)` constructor: a Dafny datatype constructor cannot be hidden, so nothing stops other code from making a `Pizza` directly.
- Returning `Builder&` in C++17/C++20: a reference is modelled by returning the builder object itself (`self == this`). Chaining on a temporary is modelled by a local variable.
- The Prototype registry in `creational/Prototype Pattern.cpp` is not part of this model.
