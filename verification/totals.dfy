/** The derived totals of the invoice view (components/InvoicePaper.tsx):
    the subtotal as the `reduce` over the rows, the tax, discount and grand
    total derived from the two percentage rates, and the `parseFloat(..) || 0`
    and `parseInt(..) || 0` coercions of typed numeric input. Arithmetic is
    exact: the source does no rounding of its own. */
module Totals {
  import opened Types

  /** `item.price * item.quantity`. */
  function LineTotal(item: LineItem): real {
    item.price * item.quantity as real
  }

  /** The reference sum of the line totals, first row first. */
  function Sum(items: seq<LineItem>): real
    decreases |items|
  {
    if items == [] then 0.0 else LineTotal(items[0]) + Sum(items[1..])
  }

  /** The `reduce((acc, item) => acc + item.price * item.quantity, acc)` of
      `calculateSubtotal`: a left fold from the accumulator. */
  function Reduce(items: seq<LineItem>, acc: real): real
    decreases |items|
  {
    if items == [] then acc else Reduce(items[1..], acc + LineTotal(items[0]))
  }

  /** The fold adds exactly the sum of the line totals to its accumulator. */
  lemma {:induction false} ReduceIsSum(items: seq<LineItem>, acc: real)
    ensures Reduce(items, acc) == acc + Sum(items)
    decreases |items|
  {
    if items != [] {
      ReduceIsSum(items[1..], acc + LineTotal(items[0]));
    }
  }

  /** `calculateSubtotal()`: the fold started from 0, which is the sum of
      price times quantity over all rows. */
  function Subtotal(items: seq<LineItem>): (r: real)
    ensures r == Sum(items)
  {
    ReduceIsSum(items, 0.0);
    Reduce(items, 0.0)
  }

  /** Additivity: the sum over two blocks is the sum of the blocks' sums. */
  lemma {:induction false} SumConcat(a: seq<LineItem>, b: seq<LineItem>)
    ensures Sum(a + b) == Sum(a) + Sum(b)
    decreases |a|
  {
    if a == [] {
      assert a + b == b;
    } else {
      assert (a + b)[1..] == a[1..] + b;
      SumConcat(a[1..], b);
    }
  }

  /** Appending one row adds exactly that row's line total to the subtotal. */
  lemma SubtotalAppend(items: seq<LineItem>, item: LineItem)
    ensures Subtotal(items + [item]) == Subtotal(items) + item.price * item.quantity as real
  {
    SumConcat(items, [item]);
  }

  /** Taking row `j` out of a list takes its line total out of the sum. */
  lemma SumRemoveAt(b: seq<LineItem>, j: nat)
    requires j < |b|
    ensures Sum(b) == LineTotal(b[j]) + Sum(b[..j] + b[j + 1..])
  {
    var left, right := b[..j], b[j + 1..];
    assert b == left + ([b[j]] + right);
    SumConcat(left, [b[j]] + right);
    assert ([b[j]] + right)[1..] == right;
    SumConcat(left, right);
  }

  /** Taking element `j` out of a list takes one copy of it out of its multiset. */
  lemma MultisetRemoveAt<T>(b: seq<T>, j: nat)
    requires j < |b|
    ensures multiset(b[..j] + b[j + 1..]) == multiset(b) - multiset{b[j]}
  {
    var left, right := b[..j], b[j + 1..];
    assert b == left + [b[j]] + right;
    assert multiset(b) == multiset(left) + multiset{b[j]} + multiset(right);
    assert multiset(left + right) == multiset(left) + multiset(right);
  }

  /** Taking the first element of `a` and a copy of it from `b` out of two
      lists with the same elements leaves two lists with the same elements. */
  lemma MultisetRemoveMatching<T>(a: seq<T>, b: seq<T>, j: nat)
    requires multiset(a) == multiset(b)
    requires a != [] && j < |b| && b[j] == a[0]
    ensures multiset(a[1..]) == multiset(b[..j] + b[j + 1..])
  {
    assert a == [a[0]] + a[1..];
    assert multiset(a[1..]) == multiset(a) - multiset{a[0]};
    MultisetRemoveAt(b, j);
  }

  /** Order independence: two lists holding the same rows, in any order, have
      the same sum. */
  lemma {:induction false} SumPermutation(a: seq<LineItem>, b: seq<LineItem>)
    requires multiset(a) == multiset(b)
    ensures Sum(a) == Sum(b)
    decreases |a|
  {
    if a == [] {
      assert |b| == |multiset(b)| == 0;
    } else {
      var x := a[0];
      assert x in multiset(b) by {
        assert x in multiset(a);
      }
      var j :| 0 <= j < |b| && b[j] == x;
      var rest := b[..j] + b[j + 1..];
      assert multiset(a[1..]) == multiset(rest) by {
        MultisetRemoveMatching(a, b, j);
      }
      assert Sum(a[1..]) == Sum(rest) by {
        SumPermutation(a[1..], rest);
      }
      assert Sum(b) == LineTotal(x) + Sum(rest) by {
        SumRemoveAt(b, j);
      }
      assert Sum(a) == LineTotal(x) + Sum(a[1..]);
    }
  }

  /** The subtotal does not depend on the display order of the rows. */
  lemma SubtotalPermutation(a: seq<LineItem>, b: seq<LineItem>)
    requires multiset(a) == multiset(b)
    ensures Subtotal(a) == Subtotal(b)
  {
    SumPermutation(a, b);
  }

  /** Two lists whose rows have the same line totals, position by position,
      have the same sum. */
  lemma {:induction false} SumPointwise(a: seq<LineItem>, b: seq<LineItem>)
    requires |a| == |b|
    requires forall i :: 0 <= i < |a| ==> LineTotal(a[i]) == LineTotal(b[i])
    ensures Sum(a) == Sum(b)
    decreases |a|
  {
    if a != [] {
      assert forall i :: 0 <= i < |a[1..]| ==> a[1..][i] == a[i + 1] && b[1..][i] == b[i + 1];
      SumPointwise(a[1..], b[1..]);
    }
  }

  /** The four derived amounts shown under the rows. */
  datatype Amounts = Amounts(subtotal: real, taxAmount: real, discountAmount: real, total: real)

  /** `taxAmount = subtotal * (taxRate / 100)`,
      `discountAmount = subtotal * (discountRate / 100)` and
      `total = subtotal + taxAmount - discountAmount`. Any real rates are
      accepted, negative ones included; the computation never fails. */
  function Derive(subtotal: real, taxRate: real, discountRate: real): (t: Amounts)
    ensures t.subtotal == subtotal
    ensures t.taxAmount * 100.0 == subtotal * taxRate
    ensures t.discountAmount * 100.0 == subtotal * discountRate
    ensures t.total * 100.0 == subtotal * (100.0 + taxRate - discountRate)
    ensures taxRate == 0.0 && discountRate == 0.0 ==> t.total == subtotal
  {
    var taxAmount := subtotal * (taxRate / 100.0);
    var discountAmount := subtotal * (discountRate / 100.0);
    Amounts(subtotal, taxAmount, discountAmount, subtotal + taxAmount - discountAmount)
  }

  /** For fixed rates the derived total is linear in the subtotal. */
  lemma DeriveAdditive(x: real, y: real, taxRate: real, discountRate: real)
    ensures Derive(x + y, taxRate, discountRate).total
         == Derive(x, taxRate, discountRate).total + Derive(y, taxRate, discountRate).total
  {
    var k := 100.0 + taxRate - discountRate;
    assert (x + y) * k == x * k + y * k;
  }

  /** The four amounts the view shows for a list of rows and two rates: the
      subtotal is the sum of price x quantity, and the other three are
      derived from it. */
  function ComputeTotals(items: seq<LineItem>, taxRate: real, discountRate: real): (t: Amounts)
    ensures t == Derive(Sum(items), taxRate, discountRate)
  {
    Derive(Subtotal(items), taxRate, discountRate)
  }

  /** The derived amounts depend on the rows only through their sum. */
  lemma TotalsDependOnSum(a: seq<LineItem>, b: seq<LineItem>, taxRate: real, discountRate: real)
    requires Sum(a) == Sum(b)
    ensures ComputeTotals(a, taxRate, discountRate) == ComputeTotals(b, taxRate, discountRate)
  {
  }

  /** The grand total is additive over blocks of rows, for any fixed rates. */
  lemma TotalAdditive(a: seq<LineItem>, b: seq<LineItem>, taxRate: real, discountRate: real)
    ensures ComputeTotals(a + b, taxRate, discountRate).total
         == ComputeTotals(a, taxRate, discountRate).total + ComputeTotals(b, taxRate, discountRate).total
  {
    SumConcat(a, b);
    DeriveAdditive(Sum(a), Sum(b), taxRate, discountRate);
  }

  /** Example: rows (1000 x 2) and (500 x 2) with both rates 0 give subtotal
      and total 3000. */
  lemma ExampleTwoRows()
    ensures var t := ComputeTotals([LineItem("a", "", "", 1000.0, 2), LineItem("b", "", "", 500.0, 2)], 0.0, 0.0);
      t.subtotal == 3000.0 && t.total == 3000.0
  {
    var items := [LineItem("a", "", "", 1000.0, 2), LineItem("b", "", "", 500.0, 2)];
    assert Sum(items[1..][1..]) == 0.0;
    assert Sum(items[1..]) == 1000.0;
  }

  /** Example: a subtotal of 2000 with tax 10% and discount 5% gives tax 200,
      discount 100 and total 2100. */
  lemma ExampleRates()
    ensures var t := ComputeTotals([LineItem("a", "", "", 1000.0, 2)], 10.0, 5.0);
      t.subtotal == 2000.0 && t.taxAmount == 200.0 && t.discountAmount == 100.0 && t.total == 2100.0
  {
    var items := [LineItem("a", "", "", 1000.0, 2)];
    assert Sum(items[1..]) == 0.0;
  }

  /** The default document's subtotal is 1000x2 + 1000x1 + 500x2 + 1000x3 = 7000,
      and with its zero rates the total is 7000 too. */
  lemma DefaultTotals(date: string, dueDate: string)
    ensures var d := InitialInvoice(date, dueDate);
      var t := ComputeTotals(d.items, d.taxRate, d.discountRate);
      t.subtotal == 7000.0 && t.total == 7000.0
  {
    var s := DefaultItems;
    assert Sum(s[1..][1..][1..][1..]) == 0.0;
    assert Sum(s[1..][1..][1..]) == 3000.0;
    assert Sum(s[1..][1..]) == 4000.0;
    assert Sum(s[1..]) == 5000.0;
  }

  /** What `parseFloat`/`parseInt` return: a number, or NaN when the text
      does not start with one. */
  datatype Parsed<T> = NaN | Number(value: T)

  /** `parseFloat(text) || 0`: NaN and (signed) zero are falsy and become 0;
      any other number passes through. */
  function CoerceFloat(p: Parsed<real>): (r: real)
    ensures p.NaN? ==> r == 0.0
    ensures p.Number? ==> r == p.value
    ensures r == 0.0 <==> p.NaN? || p.value == 0.0
  {
    match p
    case NaN => 0.0
    case Number(v) => if v == 0.0 then 0.0 else v
  }

  /** `parseInt(text) || 0`, the same rule for the quantity. */
  function CoerceInt(p: Parsed<int>): (r: int)
    ensures p.NaN? ==> r == 0
    ensures p.Number? ==> r == p.value
    ensures r == 0 <==> p.NaN? || p.value == 0
  {
    match p
    case NaN => 0
    case Number(v) => if v == 0 then 0 else v
  }
}
