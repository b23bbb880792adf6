/**
 * The deducing-this builder (the third program of creational/Builder.cpp,
 * C++23). Every step takes the builder by value, changes its own copy and
 * returns that copy, so the builder is a value and each step a function: the
 * receiver is never changed and an intermediate builder can be reused as a
 * branching point. `build()` refuses an empty crust.
 */
module Builder23 {
  import opened PizzaSpecs

  /** The exception `build()` throws, "Crust type required!". */
  datatype BuildError = CrustTypeRequired

  datatype Result<T> = Ok(value: T) | Err(error: BuildError)

  datatype Builder = Builder(specs: Specs) {

    /** `crust(c)`: a copy whose crust is `c`; size and toppings as before. */
    function Crust(c: string): (r: Builder)
      ensures r.specs.crust == c
      ensures r.specs.sizeCm == specs.sizeCm && r.specs.toppings == specs.toppings
    {
      Builder(specs.(crust := c))
    }

    /** `size(cm)`: a copy whose size is `cm`; crust and toppings as before. */
    function Size(cm: Int32): (r: Builder)
      ensures r.specs.sizeCm == cm
      ensures r.specs.crust == specs.crust && r.specs.toppings == specs.toppings
    {
      Builder(specs.(sizeCm := cm))
    }

    /**
     * `add(topping)`: a copy with `topping` appended; the earlier toppings
     * keep their order, crust and size are as before.
     */
    function Add(topping: string): (r: Builder)
      ensures |r.specs.toppings| == |specs.toppings| + 1
      ensures r.specs.toppings[..|specs.toppings|] == specs.toppings
      ensures r.specs.toppings[|specs.toppings|] == topping
      ensures r.specs.crust == specs.crust && r.specs.sizeCm == specs.sizeCm
    {
      Builder(specs.(toppings := specs.toppings + [topping]))
    }

    /**
     * `build()`: fails exactly when no crust was given; otherwise a pizza
     * with the builder's specs, whose crust is therefore never empty.
     */
    function Build(): (r: Result<Pizza>)
      ensures r.Err? <==> specs.crust == ""
      ensures r.Err? ==> r.error == CrustTypeRequired
      ensures r.Ok? ==> r.value.specs == specs && r.value.specs.crust != ""
    {
      if specs.crust == "" then Err(CrustTypeRequired) else Ok(Pizza(specs))
    }

    /**
     * The step of this builder that a chain element calls. This builder
     * offers `crust`, `size` and `add`, but no `toppings(range)`.
     */
    function Then(step: Step): (r: Builder)
      requires !step.SetToppings?
      ensures r.specs == Apply(specs, step)
    {
      match step
      case SetCrust(c) => Crust(c)
      case SetSize(cm) => Size(cm)
      case AppendTopping(t) => Add(t)
    }

    /**
     * A fluent chain `b.step1().step2()...`: its result has the specs that
     * running the steps left to right gives.
     */
    function Chain(steps: seq<Step>): (r: Builder)
      requires OnlyAppends(steps)
      ensures r.specs == Run(specs, steps)
      decreases |steps|
    {
      if steps == [] then this
      else
        assert OnlyAppends(steps[1..]) by {
          forall i | 0 <= i < |steps[1..]| ensures !steps[1..][i].SetToppings? {
            assert steps[1..][i] == steps[i + 1];
          }
        }
        Then(steps[0]).Chain(steps[1..])
    }
  }

  /** `Pizza::Builder{}`. */
  const Fresh: Builder := Builder(DefaultSpecs)

  /** A chain from a fresh builder that never sets the crust cannot be built. */
  lemma NoCrustNoPizza(steps: seq<Step>)
    requires OnlyAppends(steps) && Untouched(steps, CrustField)
    ensures Fresh.Chain(steps).Build() == Err(CrustTypeRequired)
  {
    RunFrame(DefaultSpecs, steps);
  }

  /**
   * Supplying a non-empty crust and rebuilding succeeds, and the pizza has
   * that crust, whatever non-crust steps come after it.
   */
  lemma CrustThenBuild(b: Builder, c: string, steps: seq<Step>)
    requires c != ""
    requires OnlyAppends(steps) && Untouched(steps, CrustField)
    ensures b.Crust(c).Chain(steps).Build().Ok?
    ensures b.Crust(c).Chain(steps).Build().value.specs.crust == c
  {
    RunFrame(b.Crust(c).specs, steps);
  }

  /** A fresh builder that is never sized builds a 32 cm pizza. */
  lemma DefaultSizeWhenUnset(steps: seq<Step>)
    requires OnlyAppends(steps) && Untouched(steps, SizeField)
    ensures Fresh.Chain(steps).specs.sizeCm == 32
  {
    RunFrame(DefaultSpecs, steps);
  }

  /**
   * From a fresh builder, the toppings of a chain are exactly its `add`
   * arguments in call order.
   */
  lemma ToppingsAreAdds(steps: seq<Step>)
    requires OnlyAppends(steps)
    ensures Fresh.Chain(steps).specs.toppings == Added(steps)
  {
    ToppingsInCallOrder(DefaultSpecs, steps);
  }

  /** The chain in `main`: a 33 cm Roman pizza with four cheeses. */
  function Quattro(): (r: Result<Pizza>)
    ensures r.Ok?
    ensures r.value.specs == Specs("Roman", 33, ["Mozzarella", "Parmesan", "Gorgonzola", "Ricotta"])
    ensures |r.value.specs.toppings| == 4
  {
    Fresh.Crust("Roman").Size(33).Add("Mozzarella").Add("Parmesan")
      .Add("Gorgonzola").Add("Ricotta").Build()
  }
}
