/**
 * Quote pricing. Every component that shows a total computes it with
 * `items.reduce((acc, x) => acc + x.quantity * x.unitPrice, 0)`; `Reduce` is
 * that left-to-right fold. `Sum` is the reference subtotal,
 * defined independently, and `GrandTotal` the reference total every display
 * is measured against: services + materials + travel fee - discount.
 */
module Pricing {
  import opened Types
  import Seqs

  function ServiceLine(s: SelectedService): real
  {
    s.quantity as real * s.unitPrice
  }

  function MaterialLine(m: MaterialItem): real
  {
    m.quantity * m.unitPrice
  }

  /** `xs.reduce((acc, x) => acc + line(x), acc)`, folding from the left as JavaScript does. */
  function Reduce<T>(xs: seq<T>, line: T -> real, acc: real): real
    decreases |xs|
  {
    if xs == [] then acc else Reduce(xs[1..], line, acc + line(xs[0]))
  }

  /** The sum of the line totals of `xs`; the empty sequence sums to 0. */
  function Sum<T>(xs: seq<T>, line: T -> real): real
  {
    if xs == [] then 0.0 else line(xs[0]) + Sum(xs[1..], line)
  }

  /** The fold the program runs computes the reference sum, offset by its start value. */
  lemma {:induction false} ReduceIsSum<T>(xs: seq<T>, line: T -> real, acc: real)
    ensures Reduce(xs, line, acc) == acc + Sum(xs, line)
    decreases |xs|
  {
    if xs != [] {
      ReduceIsSum(xs[1..], line, acc + line(xs[0]));
    }
  }

  lemma {:induction false} SumAppend<T>(a: seq<T>, b: seq<T>, line: T -> real)
    ensures Sum(a + b, line) == Sum(a, line) + Sum(b, line)
  {
    if a == [] {
      assert a + b == b;
    } else {
      assert (a + b)[1..] == a[1..] + b;
      SumAppend(a[1..], b, line);
    }
  }

  /** Replacing one line changes the sum by exactly the difference of the two line totals. */
  lemma {:induction false} SumUpdate<T>(xs: seq<T>, i: nat, x: T, line: T -> real)
    requires i < |xs|
    ensures Sum(xs[i := x], line) == Sum(xs, line) - line(xs[i]) + line(x)
  {
    if i == 0 {
      assert xs[i := x][1..] == xs[1..];
    } else {
      assert xs[i := x][1..] == xs[1..][i - 1 := x];
      SumUpdate(xs[1..], i - 1, x, line);
    }
  }

  /** Splitting a list by a predicate and its complement splits its sum. */
  lemma {:induction false} SumFilterSplit<T>(xs: seq<T>, line: T -> real, p: T -> bool, q: T -> bool)
    requires forall i :: 0 <= i < |xs| ==> q(xs[i]) == !p(xs[i])
    ensures Sum(xs, line) == Sum(Seqs.Filter(xs, p), line) + Sum(Seqs.Filter(xs, q), line)
  {
    if xs != [] {
      SumFilterSplit(xs[1..], line, p, q);
      var a := if p(xs[0]) then [xs[0]] else [];
      var b := if q(xs[0]) then [xs[0]] else [];
      SumAppend(a, Seqs.Filter(xs[1..], p), line);
      SumAppend(b, Seqs.Filter(xs[1..], q), line);
    }
  }

  lemma {:induction false} SumNonNegative<T>(xs: seq<T>, line: T -> real)
    requires forall i :: 0 <= i < |xs| ==> line(xs[i]) >= 0.0
    ensures Sum(xs, line) >= 0.0
  {
    if xs != [] {
      SumNonNegative(xs[1..], line);
    }
  }

  function ServicesSubtotal(services: seq<SelectedService>): real
  {
    Sum(services, ServiceLine)
  }

  function MaterialsSubtotal(materials: seq<MaterialItem>): real
  {
    Sum(materials, MaterialLine)
  }

  /** The reference grand total. It is not clamped: a large discount makes it negative. */
  function GrandTotal(services: seq<SelectedService>, materials: seq<MaterialItem>, travelFee: real, discount: real): real
  {
    ServicesSubtotal(services) + MaterialsSubtotal(materials) + travelFee - discount
  }

  function QuoteTotal(q: Quote): real
  {
    GrandTotal(q.services, q.materials, q.travelFee, q.discount)
  }

  /** A quote without line items totals travel fee minus discount. */
  lemma EmptyQuoteTotal(q: Quote)
    requires q.services == [] && q.materials == []
    ensures QuoteTotal(q) == q.travelFee - q.discount
  {
  }

  /** Scaling by a non-negative factor keeps the order, on either side of the product. */
  lemma ScaleMonotone(k: real, a: real, b: real)
    requires k >= 0.0 && a <= b
    ensures k * a <= k * b && a * k <= b * k
  {
    assert k * (b - a) >= 0.0;
  }

  /** A line at a non-negative quantity does not lose value when its price rises, nor a line at a non-negative price when its quantity rises. */
  lemma ServiceLineMonotone(s: SelectedService, price: real, quantity: int)
    ensures s.quantity >= 0 && price >= s.unitPrice ==> ServiceLine(s.(unitPrice := price)) >= ServiceLine(s)
    ensures s.unitPrice >= 0.0 && quantity >= s.quantity ==> ServiceLine(s.(quantity := quantity)) >= ServiceLine(s)
  {
    if s.quantity >= 0 && price >= s.unitPrice {
      ScaleMonotone(s.quantity as real, s.unitPrice, price);
    }
    if s.unitPrice >= 0.0 && quantity >= s.quantity {
      ScaleMonotone(s.unitPrice, s.quantity as real, quantity as real);
    }
  }

  lemma MaterialLineMonotone(m: MaterialItem, price: real, quantity: real)
    ensures m.quantity >= 0.0 && price >= m.unitPrice ==> MaterialLine(m.(unitPrice := price)) >= MaterialLine(m)
    ensures m.unitPrice >= 0.0 && quantity >= m.quantity ==> MaterialLine(m.(quantity := quantity)) >= MaterialLine(m)
  {
    if m.quantity >= 0.0 && price >= m.unitPrice {
      ScaleMonotone(m.quantity, m.unitPrice, price);
    }
    if m.unitPrice >= 0.0 && quantity >= m.quantity {
      ScaleMonotone(m.unitPrice, m.quantity, quantity);
    }
  }

  /** Raising one service's unit price, at a non-negative quantity, never lowers the total. */
  lemma TotalMonotoneInServicePrice(q: Quote, i: nat, price: real)
    requires i < |q.services| && q.services[i].quantity >= 0 && price >= q.services[i].unitPrice
    ensures QuoteTotal(q.(services := q.services[i := q.services[i].(unitPrice := price)])) >= QuoteTotal(q)
  {
    var s := q.services[i];
    SumUpdate(q.services, i, s.(unitPrice := price), ServiceLine);
    ServiceLineMonotone(s, price, s.quantity);
  }

  /** Raising one service's quantity, at a non-negative unit price, never lowers the total. */
  lemma TotalMonotoneInServiceQuantity(q: Quote, i: nat, quantity: int)
    requires i < |q.services| && q.services[i].unitPrice >= 0.0 && quantity >= q.services[i].quantity
    ensures QuoteTotal(q.(services := q.services[i := q.services[i].(quantity := quantity)])) >= QuoteTotal(q)
  {
    var s := q.services[i];
    SumUpdate(q.services, i, s.(quantity := quantity), ServiceLine);
    ServiceLineMonotone(s, s.unitPrice, quantity);
  }

  /** Raising one material's unit price, at a non-negative quantity, never lowers the total. */
  lemma TotalMonotoneInMaterialPrice(q: Quote, i: nat, price: real)
    requires i < |q.materials| && q.materials[i].quantity >= 0.0 && price >= q.materials[i].unitPrice
    ensures QuoteTotal(q.(materials := q.materials[i := q.materials[i].(unitPrice := price)])) >= QuoteTotal(q)
  {
    var m := q.materials[i];
    SumUpdate(q.materials, i, m.(unitPrice := price), MaterialLine);
    MaterialLineMonotone(m, price, m.quantity);
  }

  /** Raising one material's quantity, at a non-negative unit price, never lowers the total. */
  lemma TotalMonotoneInMaterialQuantity(q: Quote, i: nat, quantity: real)
    requires i < |q.materials| && q.materials[i].unitPrice >= 0.0 && quantity >= q.materials[i].quantity
    ensures QuoteTotal(q.(materials := q.materials[i := q.materials[i].(quantity := quantity)])) >= QuoteTotal(q)
  {
    var m := q.materials[i];
    SumUpdate(q.materials, i, m.(quantity := quantity), MaterialLine);
    MaterialLineMonotone(m, m.unitPrice, quantity);
  }

  /** The worked example: 2 x 55.00 of labour, 3 x 2.50 of material, 20 travel, 10 discount. */
  lemma WorkedExample(q: Quote)
    requires q.services == [SelectedService("s", "i1", "Interruptor", 2, 55.0)]
    requires q.materials == [MaterialItem("m", "Cabo", 3.0, "m", 2.5)]
    requires q.travelFee == 20.0 && q.discount == 10.0
    ensures ServicesSubtotal(q.services) == 110.0
    ensures MaterialsSubtotal(q.materials) == 7.5
    ensures QuoteTotal(q) == 127.5
  {
    assert q.services[1..] == [];
    assert q.materials[1..] == [];
    assert Sum(q.services[1..], ServiceLine) == 0.0;
    assert Sum(q.services, ServiceLine) == ServiceLine(q.services[0]) + Sum(q.services[1..], ServiceLine);
    assert ServiceLine(q.services[0]) == 110.0;
    assert Sum(q.materials[1..], MaterialLine) == 0.0;
    assert MaterialLine(q.materials[0]) == 7.5;
  }
}
