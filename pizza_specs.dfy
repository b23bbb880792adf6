/**
 * The record every pizza builder accumulates, the finished product, and the
 * meaning of a chain of builder steps.
 *
 * All three builders in creational/Builder.cpp declare the same `Specs`
 * aggregate (a crust, a size in centimetres defaulting to 32 and an ordered
 * list of toppings) and a `Pizza` that holds a copy of it. They are declared
 * once here and shared by the modules Builder17, Builder20 and Builder23.
 */
module PizzaSpecs {

  /** The C++ `int` that `size_cm` and the `size` steps use. */
  newtype Int32 = x: int | -0x8000_0000 <= x < 0x8000_0000

  /** `Pizza::Specs`: no invariant is enforced on it. */
  datatype Specs = Specs(crust: string, sizeCm: Int32, toppings: seq<string>)

  /** The default member initialiser `size_cm = 32`. */
  const DefaultSizeCm: Int32 := 32

  /** A value-initialised `Specs{}`: empty crust, 32 cm, no toppings. */
  const DefaultSpecs: Specs := Specs("", DefaultSizeCm, [])

  /**
   * The product. It holds its own copy of the specs, read back through
   * `specs()`; there is no way to change it after construction.
   */
  datatype Pizza = Pizza(specs: Specs)

  /** One fluent step of a builder chain, whichever builder offers it. */
  datatype Step =
    | SetCrust(c: string)            // crust(c)
    | SetSize(cm: Int32)             // size(cm)
    | AppendTopping(t: string)       // addTopping(t) / add(t)
    | SetToppings(ts: seq<string>)   // toppings(range)

  datatype Field = CrustField | SizeField | ToppingsField

  /** The one field of the specs a step writes. */
  function Target(step: Step): Field
  {
    match step
    case SetCrust(_) => CrustField
    case SetSize(_) => SizeField
    case AppendTopping(_) => ToppingsField
    case SetToppings(_) => ToppingsField
  }

  /**
   * The effect of one step on the accumulated specs: crust and size are
   * overwritten, `addTopping` appends, `toppings(range)` replaces the list.
   */
  function Apply(s: Specs, step: Step): (r: Specs)
    ensures Target(step) != CrustField ==> r.crust == s.crust
    ensures Target(step) != SizeField ==> r.sizeCm == s.sizeCm
    ensures Target(step) != ToppingsField ==> r.toppings == s.toppings
    ensures step.SetCrust? ==> r.crust == step.c
    ensures step.SetSize? ==> r.sizeCm == step.cm
    ensures step.AppendTopping? ==> r.toppings == s.toppings + [step.t]
    ensures step.SetToppings? ==> r.toppings == step.ts
  {
    match step
    case SetCrust(c) => s.(crust := c)
    case SetSize(cm) => s.(sizeCm := cm)
    case AppendTopping(t) => s.(toppings := s.toppings + [t])
    case SetToppings(ts) => s.(toppings := ts)
  }

  /** The specs after the steps of a chain, applied left to right. */
  function Run(s: Specs, steps: seq<Step>): Specs
    decreases |steps|
  {
    if steps == [] then s else Run(Apply(s, steps[0]), steps[1..])
  }

  /** True when no step of the chain writes the given field. */
  predicate Untouched(steps: seq<Step>, f: Field)
  {
    forall i | 0 <= i < |steps| :: Target(steps[i]) != f
  }

  /** True when the chain never replaces the topping list wholesale. */
  predicate OnlyAppends(steps: seq<Step>)
  {
    forall i | 0 <= i < |steps| :: !steps[i].SetToppings?
  }

  /** The arguments of the `addTopping` steps of a chain, in call order. */
  function Added(steps: seq<Step>): seq<string>
    decreases |steps|
  {
    if steps == [] then []
    else (if steps[0].AppendTopping? then [steps[0].t] else []) + Added(steps[1..])
  }

  /** Running two chains one after the other is running their concatenation. */
  lemma {:induction false} RunConcat(s: Specs, xs: seq<Step>, ys: seq<Step>)
    ensures Run(s, xs + ys) == Run(Run(s, xs), ys)
    decreases |xs|
  {
    if xs == [] {
      assert xs + ys == ys;
    } else {
      assert (xs + ys)[0] == xs[0];
      assert (xs + ys)[1..] == xs[1..] + ys;
      RunConcat(Apply(s, xs[0]), xs[1..], ys);
    }
  }

  /** One more call at the end of a chain applies after all the others. */
  lemma RunSnoc(s: Specs, xs: seq<Step>, x: Step)
    ensures Run(s, xs + [x]) == Apply(Run(s, xs), x)
  {
    RunConcat(s, xs, [x]);
    assert [x][1..] == [];
  }

  /** A field that no step of a chain targets keeps its value. */
  lemma {:induction false} RunFrame(s: Specs, steps: seq<Step>)
    ensures Untouched(steps, CrustField) ==> Run(s, steps).crust == s.crust
    ensures Untouched(steps, SizeField) ==> Run(s, steps).sizeCm == s.sizeCm
    ensures Untouched(steps, ToppingsField) ==> Run(s, steps).toppings == s.toppings
    decreases |steps|
  {
    if steps != [] {
      RunFrame(Apply(s, steps[0]), steps[1..]);
      forall f: Field | Untouched(steps, f) ensures Untouched(steps[1..], f) {
        forall i | 0 <= i < |steps[1..]| ensures Target(steps[1..][i]) != f {
          assert steps[1..][i] == steps[i + 1];
        }
      }
      assert Untouched(steps, CrustField) ==> Target(steps[0]) != CrustField;
      assert Untouched(steps, SizeField) ==> Target(steps[0]) != SizeField;
      assert Untouched(steps, ToppingsField) ==> Target(steps[0]) != ToppingsField;
    }
  }

  /** The last `crust` call of a chain decides the crust. */
  lemma LastCrustWins(s: Specs, xs: seq<Step>, c: string, ys: seq<Step>)
    requires Untouched(ys, CrustField)
    ensures Run(s, xs + [SetCrust(c)] + ys).crust == c
  {
    RunConcat(s, xs + [SetCrust(c)], ys);
    RunConcat(s, xs, [SetCrust(c)]);
    RunFrame(Run(s, xs + [SetCrust(c)]), ys);
  }

  /** The last `size` call of a chain decides the size. */
  lemma LastSizeWins(s: Specs, xs: seq<Step>, cm: Int32, ys: seq<Step>)
    requires Untouched(ys, SizeField)
    ensures Run(s, xs + [SetSize(cm)] + ys).sizeCm == cm
  {
    RunConcat(s, xs + [SetSize(cm)], ys);
    RunConcat(s, xs, [SetSize(cm)]);
    RunFrame(Run(s, xs + [SetSize(cm)]), ys);
  }

  /**
   * Without a wholesale replacement, the toppings are the initial ones
   * followed by every added topping in call order.
   */
  lemma {:induction false} ToppingsInCallOrder(s: Specs, steps: seq<Step>)
    requires OnlyAppends(steps)
    ensures Run(s, steps).toppings == s.toppings + Added(steps)
    decreases |steps|
  {
    if steps == [] {
      assert s.toppings + [] == s.toppings;
    } else {
      assert OnlyAppends(steps[1..]) by {
        forall i | 0 <= i < |steps[1..]| ensures !steps[1..][i].SetToppings? {
          assert steps[1..][i] == steps[i + 1];
        }
      }
      assert !steps[0].SetToppings?;
      ToppingsInCallOrder(Apply(s, steps[0]), steps[1..]);
      var head := if steps[0].AppendTopping? then [steps[0].t] else [];
      assert Apply(s, steps[0]).toppings == s.toppings + head;
      assert (s.toppings + head) + Added(steps[1..]) == s.toppings + (head + Added(steps[1..]));
    }
  }

  /**
   * `toppings(range)` discards every earlier topping: afterwards the list is
   * the range followed by what later steps append.
   */
  lemma ToppingsReplaced(s: Specs, xs: seq<Step>, ts: seq<string>, ys: seq<Step>)
    requires OnlyAppends(ys)
    ensures Run(s, xs + [SetToppings(ts)] + ys).toppings == ts + Added(ys)
  {
    RunConcat(s, xs + [SetToppings(ts)], ys);
    RunConcat(s, xs, [SetToppings(ts)]);
    ToppingsInCallOrder(Run(s, xs + [SetToppings(ts)]), ys);
  }

  /**
   * Steps that write different fields commute, so any reordering of
   * independent calls builds the same specs.
   */
  lemma SwapIndependent(s: Specs, xs: seq<Step>, a: Step, b: Step, ys: seq<Step>)
    requires Target(a) != Target(b)
    ensures Run(s, xs + [a, b] + ys) == Run(s, xs + [b, a] + ys)
  {
    var t := Run(s, xs);
    RunConcat(s, xs + [a, b], ys);
    RunConcat(s, xs + [b, a], ys);
    RunConcat(s, xs, [a, b]);
    RunConcat(s, xs, [b, a]);
    assert [a, b][1..] == [b] && [b, a][1..] == [a] && [a][1..] == [] && [b][1..] == [];
    assert Run(t, [a, b]) == Run(Apply(t, a), [b]) == Apply(Apply(t, a), b);
    assert Run(t, [b, a]) == Run(Apply(t, b), [a]) == Apply(Apply(t, b), a);
  }
}
