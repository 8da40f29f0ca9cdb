/**
 * The product filter of the Open/Closed example: products with a colour and a
 * size, and `ProductFilter::by_color`, which takes a vector of product
 * pointers and is meant to keep those of one colour.
 *
 * As written, `return result;` stands inside the `for` body, so the filter
 * looks at the first product only and returns; on an empty vector it runs off
 * the end of a value-returning function. `ByColor` models exactly that code.
 * `Filter` and `FilterByColor` state the full scan evidently intended, and
 * `ByColorAgreesWithFilterIff` says when the two coincide.
 */
module OpenClose {

  datatype Color = Red | Green | Blue

  datatype Size = Small | Medium | Large

  /** A product is reached through a pointer and only read, so its fields are constants. */
  class Product {
    const name: string
    const color: Color
    const size: Size

    constructor (name: string, color: Color, size: Size)
      ensures this.name == name && this.color == color && this.size == size
    {
      this.name := name;
      this.color := color;
      this.size := size;
    }
  }

  /** The intended colour filter: every product of the colour, in input order. */
  function Filter(items: seq<Product>, color: Color): (r: seq<Product>)
    ensures |r| <= |items|
    ensures forall p :: p in r ==> p in items && p.color == color
    ensures forall p :: p in items && p.color == color ==> p in r
  {
    if items == [] then []
    else if items[0].color == color then [items[0]] + Filter(items[1..], color)
    else Filter(items[1..], color)
  }

  /** Filtering a concatenation filters each part and keeps them in order. */
  lemma {:induction false} FilterAppend(a: seq<Product>, b: seq<Product>, color: Color)
    ensures Filter(a + b, color) == Filter(a, color) + Filter(b, color)
  {
    if a != [] {
      assert (a + b)[0] == a[0];
      assert (a + b)[1..] == a[1..] + b;
      FilterAppend(a[1..], b, color);
    } else {
      assert a + b == b;
    }
  }

  /** Filtering twice by the same colour changes nothing the second time. */
  lemma {:induction false} FilterIdempotent(items: seq<Product>, color: Color)
    ensures Filter(Filter(items, color), color) == Filter(items, color)
  {
    if items != [] {
      FilterIdempotent(items[1..], color);
    }
  }

  /** The filter keeps exactly the products whose colour matches. */
  lemma FilterEmptyIff(items: seq<Product>, color: Color)
    ensures Filter(items, color) == [] <==> forall i :: 0 <= i < |items| ==> items[i].color != color
  {
    if Filter(items, color) == [] {
      forall i | 0 <= i < |items|
        ensures items[i].color != color
      {
        assert items[i] in items;
      }
    }
  }

  /**
   * `ProductFilter::by_color` as written: the loop body returns on its first
   * iteration, so only `items[0]` is looked at. The vector is taken by value
   * and the products are only read, so nothing of the caller's changes.
   */
  method ByColor(items: seq<Product>, color: Color) returns (result: seq<Product>)
    requires |items| > 0
    ensures result == if items[0].color == color then [items[0]] else []
    ensures |result| <= 1
    ensures forall p :: p in result ==> p.color == color
    ensures result == items[..|result|]
    ensures result == Filter(items[..1], color)
  {
    result := [];
    for i := 0 to |items|
      invariant i == 0 && result == []
    {
      var item := items[i];
      if item.color == color {
        result := result + [item];
      }
      return;
    }
    assert false;
  }

  /** The as-written filter agrees with the intended one exactly when no later product has the colour. */
  lemma ByColorAgreesWithFilterIff(items: seq<Product>, color: Color)
    requires |items| > 0
    ensures Filter(items, color) == Filter(items[..1], color)
            <==> forall i :: 1 <= i < |items| ==> items[i].color != color
  {
    assert items == items[..1] + items[1..];
    FilterAppend(items[..1], items[1..], color);
    FilterEmptyIff(items[1..], color);
    assert forall i :: 1 <= i < |items| ==> items[i] == items[1..][i - 1];
  }

  /** The full-scan filter evidently intended: `ByColor` with the `return` after the loop. */
  method FilterByColor(items: seq<Product>, color: Color) returns (result: seq<Product>)
    ensures result == Filter(items, color)
  {
    result := [];
    for i := 0 to |items|
      invariant result == Filter(items[..i], color)
    {
      assert items[..i + 1] == items[..i] + [items[i]];
      FilterAppend(items[..i], [items[i]], color);
      if items[i].color == color {
        result := result + [items[i]];
      }
    }
    assert items[..|items|] == items;
  }

  /**
   * The products declared in `main`. Filtering them by Green as written gives
   * only Apple, where the intended filter gives Apple and Tree; by Blue, House
   * is never reached, where the intended filter gives House.
   */
  method MainScenario()
    returns (green: seq<Product>, blue: seq<Product>, intendedGreen: seq<Product>, intendedBlue: seq<Product>)
    ensures |green| == 1 && green[0].name == "Apple"
    ensures blue == []
    ensures |intendedGreen| == 2 && intendedGreen[0].name == "Apple" && intendedGreen[1].name == "Tree"
    ensures |intendedBlue| == 1 && intendedBlue[0].name == "House"
  {
    var apple := new Product("Apple", Green, Small);
    var tree := new Product("Tree", Green, Large);
    var house := new Product("House", Blue, Large);
    var items := [apple, tree, house];
    green := ByColor(items, Green);
    blue := ByColor(items, Blue);
    intendedGreen := FilterByColor(items, Green);
    intendedBlue := FilterByColor(items, Blue);
    assert items[1..] == [tree, house] && items[1..][1..] == [house];
    assert [house][1..] == [];
    assert Filter([house], Green) == [];
    assert Filter([house], Blue) == [house];
  }
}
