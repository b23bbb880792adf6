/**
 * The constexpr-friendly builder (the second program of
 * creational/Builder.cpp, C++20). It has no `addTopping`: `toppings(range)`
 * replaces the whole list at once. The `InRange<20, 60>` constraint on
 * `size` only asks that the comparison be well-formed, so any size passes.
 */
module Builder20 {
  import opened PizzaSpecs

  class Builder {
    /** The builder's private `specs_`. */
    var specs: Specs

    /** `Pizza::Builder{}`: nothing set yet, so the defaults of `Specs`. */
    constructor ()
      ensures specs.crust == "" && specs.sizeCm == 32 && specs.toppings == []
    {
      specs := DefaultSpecs;
    }

    /** `crust(c)`: overwrites the crust, keeps size and toppings. */
    method Crust(c: string) returns (self: Builder)
      modifies this
      ensures self == this
      ensures specs.crust == c
      ensures specs.sizeCm == old(specs.sizeCm) && specs.toppings == old(specs.toppings)
      ensures specs == Apply(old(specs), SetCrust(c))
    {
      specs := specs.(crust := c);
      self := this;
    }

    /** `size(cm)`: overwrites the size, keeps crust and toppings. */
    method Size(cm: Int32) returns (self: Builder)
      modifies this
      ensures self == this
      ensures specs.sizeCm == cm
      ensures specs.crust == old(specs.crust) && specs.toppings == old(specs.toppings)
      ensures specs == Apply(old(specs), SetSize(cm))
    {
      specs := specs.(sizeCm := cm);
      self := this;
    }

    /**
     * `toppings(range)`: the list becomes exactly the range's elements in
     * order; earlier toppings are discarded, crust and size are kept.
     */
    method Toppings(range: seq<string>) returns (self: Builder)
      modifies this
      ensures self == this
      ensures specs.toppings == range
      ensures specs.crust == old(specs.crust) && specs.sizeCm == old(specs.sizeCm)
      ensures specs == Apply(old(specs), SetToppings(range))
    {
      specs := specs.(toppings := range);
      self := this;
    }

    /**
     * `build() const`: a pizza holding a copy of the accumulated specs; the
     * builder is left as it was.
     */
    method Build() returns (p: Pizza)
      ensures p.specs.crust == specs.crust
      ensures p.specs.sizeCm == specs.sizeCm
      ensures p.specs.toppings == specs.toppings
    {
      p := Pizza(specs);
    }
  }

  /** True when a chain uses only the calls this builder offers. */
  predicate Offers(steps: seq<Step>)
  {
    forall i | 0 <= i < |steps| :: !steps[i].AppendTopping?
  }

  /** The call of builder `b` that one chain element stands for. */
  method Do(b: Builder, step: Step)
    requires !step.AppendTopping?
    modifies b
    ensures b.specs == Apply(old(b.specs), step)
  {
    match step
    case SetCrust(c) => var _ := b.Crust(c);
    case SetSize(cm) => var _ := b.Size(cm);
    case SetToppings(ts) => var _ := b.Toppings(ts);
  }

  /**
   * Any fluent chain of `crust`, `size` and `toppings` calls on `b`, made in
   * order: the builder ends with the specs that running the chain gives.
   */
  method Perform(b: Builder, steps: seq<Step>)
    requires Offers(steps)
    modifies b
    ensures b.specs == Run(old(b.specs), steps)
  {
    var i := 0;
    while i < |steps|
      invariant 0 <= i <= |steps|
      invariant b.specs == Run(old(b.specs), steps[..i])
    {
      Do(b, steps[i]);
      RunSnoc(old(b.specs), steps[..i], steps[i]);
      assert steps[..i + 1] == steps[..i] + [steps[i]];
      i := i + 1;
    }
    assert steps[..i] == steps;
  }

  /**
   * A fresh builder given any chain without a `size` call builds a 32 cm
   * pizza, and one without a `toppings` call builds a pizza without toppings.
   */
  method DefaultSize(steps: seq<Step>) returns (p: Pizza)
    requires Offers(steps) && Untouched(steps, SizeField)
    ensures p.specs.sizeCm == 32
    ensures Untouched(steps, ToppingsField) ==> p.specs.toppings == []
  {
    var b := new Builder();
    Perform(b, steps);
    RunFrame(DefaultSpecs, steps);
    p := b.Build();
  }

  /** `hawaiian()`: a 40 cm pan pizza with exactly two toppings. */
  method Hawaiian() returns (p: Pizza)
    ensures p.specs == Specs("Pan", 40, ["Ham", "Pineapple"])
    ensures |p.specs.toppings| == 2
  {
    var b := new Builder();
    var b1 := b.Crust("Pan");
    var b2 := b1.Size(40);
    var b3 := b2.Toppings(["Ham", "Pineapple"]);
    p := b3.Build();
  }

  /** A second `toppings(range)` call discards the first range entirely. */
  method ToppingsOverwrite(first: seq<string>, second: seq<string>) returns (p: Pizza)
    ensures p.specs.toppings == second
  {
    var b := new Builder();
    var b1 := b.Toppings(first);
    var b2 := b1.Toppings(second);
    p := b2.Build();
  }
}
