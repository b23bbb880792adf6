/**
 * The classic fluent builder (the first program of creational/Builder.cpp,
 * C++17): every step writes one field of the builder's own `specs_` in place
 * and hands back the same builder, so calls can be chained.
 */
module Builder17 {
  import opened PizzaSpecs

  class Builder {
    /** The builder's private `specs_`. */
    var specs: Specs

    /** `Pizza::Builder{}`: nothing set yet, so the defaults of `Specs`. */
    constructor ()
      ensures specs.crust == "" && specs.sizeCm == 32 && specs.toppings == []
    {
      specs := DefaultSpecs;
    }

    /** `crust(c)`: overwrites the crust, keeps size and toppings. */
    method Crust(c: string) returns (self: Builder)
      modifies this
      ensures self == this
      ensures specs.crust == c
      ensures specs.sizeCm == old(specs.sizeCm) && specs.toppings == old(specs.toppings)
      ensures specs == Apply(old(specs), SetCrust(c))
    {
      specs := specs.(crust := c);
      self := this;
    }

    /** `size(cm)`: overwrites the size, keeps crust and toppings. */
    method Size(cm: Int32) returns (self: Builder)
      modifies this
      ensures self == this
      ensures specs.sizeCm == cm
      ensures specs.crust == old(specs.crust) && specs.toppings == old(specs.toppings)
      ensures specs == Apply(old(specs), SetSize(cm))
    {
      specs := specs.(sizeCm := cm);
      self := this;
    }

    /**
     * `addTopping(t)`: appends at the end; earlier toppings keep their
     * places, crust and size are kept.
     */
    method AddTopping(t: string) returns (self: Builder)
      modifies this
      ensures self == this
      ensures |specs.toppings| == |old(specs.toppings)| + 1
      ensures specs.toppings[..|old(specs.toppings)|] == old(specs.toppings)
      ensures specs.toppings[|old(specs.toppings)|] == t
      ensures specs.crust == old(specs.crust) && specs.sizeCm == old(specs.sizeCm)
      ensures specs == Apply(old(specs), AppendTopping(t))
    {
      specs := specs.(toppings := specs.toppings + [t]);
      self := this;
    }

    /**
     * `build() const`: a pizza holding a copy of the accumulated specs. It
     * has no `modifies` clause, so the builder is left as it was.
     */
    method Build() returns (p: Pizza)
      ensures p.specs.crust == specs.crust
      ensures p.specs.sizeCm == specs.sizeCm
      ensures p.specs.toppings == specs.toppings
    {
      p := Pizza(specs);
    }
  }

  /** The call of builder `b` that one chain element stands for. */
  method Do(b: Builder, step: Step)
    requires !step.SetToppings?
    modifies b
    ensures b.specs == Apply(old(b.specs), step)
  {
    match step
    case SetCrust(c) => var _ := b.Crust(c);
    case SetSize(cm) => var _ := b.Size(cm);
    case AppendTopping(t) => var _ := b.AddTopping(t);
  }

  /**
   * Any fluent chain of `crust`, `size` and `addTopping` calls on `b`, made
   * in order: the builder ends with the specs that running the chain gives,
   * so every lemma about `Run` holds of this builder.
   */
  method Perform(b: Builder, steps: seq<Step>)
    requires OnlyAppends(steps)
    modifies b
    ensures b.specs == Run(old(b.specs), steps)
  {
    var i := 0;
    while i < |steps|
      invariant 0 <= i <= |steps|
      invariant b.specs == Run(old(b.specs), steps[..i])
    {
      Do(b, steps[i]);
      RunSnoc(old(b.specs), steps[..i], steps[i]);
      assert steps[..i + 1] == steps[..i] + [steps[i]];
      i := i + 1;
    }
    assert steps[..i] == steps;
  }

  /** The chain in `main`: a Neapolitan margherita of 30 cm. */
  method Margherita() returns (p: Pizza)
    ensures p.specs == Specs("Neapolitan", 30, ["Tomato", "Mozzarella"])
  {
    var b := new Builder();
    var b1 := b.Crust("Neapolitan");
    var b2 := b1.Size(30);
    var b3 := b2.AddTopping("Tomato");
    var b4 := b3.AddTopping("Mozzarella");
    p := b4.Build();
  }

  /**
   * A fresh builder given any chain without a `size` call builds a 32 cm
   * pizza whose toppings are the added ones in call order.
   */
  method DefaultSize(steps: seq<Step>) returns (p: Pizza)
    requires OnlyAppends(steps) && Untouched(steps, SizeField)
    ensures p.specs.sizeCm == 32
    ensures p.specs.toppings == Added(steps)
  {
    var b := new Builder();
    Perform(b, steps);
    RunFrame(DefaultSpecs, steps);
    ToppingsInCallOrder(DefaultSpecs, steps);
    p := b.Build();
  }

  /**
   * The builder stays usable after `build()`: later steps do not reach the
   * pizza already built, and a second build sees them.
   */
  method BuildTwice(c: string, t: string) returns (first: Pizza, second: Pizza)
    ensures first.specs == Specs(c, 32, [])
    ensures second.specs == Specs(c, 32, [t])
  {
    var b := new Builder();
    var b1 := b.Crust(c);
    first := b1.Build();
    var b2 := b1.AddTopping(t);
    second := b2.Build();
  }
}
