/** The summary of `routes/dashboard.js`: four collection counts and the total price of the
    products whose price, converted to a number, is positive. */
module Dashboard {
  import opened Wrappers
  import opened Docs
  import opened Mongoose
  import opened ProductModel

  /** The aggregation's price stages over the products in natural order: documents with a
      missing or null price are skipped, `$toDouble` converts the rest (a conversion error,
      None, fails the whole aggregation), and only positive values are summed. */
  function PriceTotal(products: seq<Doc<Product>>, toDouble: string -> Option<real>): (r: Option<real>)
    ensures r.Some? ==> r.value >= 0.0
    ensures r.None? <==> exists i :: 0 <= i < |products| && products[i].body.price.Str?
                                     && toDouble(products[i].body.price.text).None?
  {
    if |products| == 0 then Some(0.0)
    else
      var rest := PriceTotal(products[1..], toDouble);
      var price := products[0].body.price;
      if !price.Str? then
        assert forall i :: 1 <= i < |products| ==> products[i] == products[1..][i - 1];
        rest
      else match toDouble(price.text)
        case None => None
        case Some(v) =>
          assert forall i :: 1 <= i < |products| ==> products[i] == products[1..][i - 1];
          if rest.None? then None
          else if v > 0.0 then Some(v + rest.value)
          else rest
  }

  /** The total over two runs of products is the sum of their totals. */
  lemma {:induction false} PriceTotalAppend(a: seq<Doc<Product>>, b: seq<Doc<Product>>, toDouble: string -> Option<real>)
    requires PriceTotal(a, toDouble).Some? && PriceTotal(b, toDouble).Some?
    ensures PriceTotal(a + b, toDouble) == Some(PriceTotal(a, toDouble).value + PriceTotal(b, toDouble).value)
    decreases |a|
  {
    if |a| == 0 {
      assert a + b == b;
    } else {
      assert (a + b)[1..] == a[1..] + b;
      assert (a + b)[0] == a[0];
      PriceTotalAppend(a[1..], b, toDouble);
    }
  }

  /** Products whose prices convert to zero or less add nothing: the route reports 0
      when nothing qualifies, whether or not the aggregation returns a group. */
  lemma {:induction false} PriceTotalNonPositive(products: seq<Doc<Product>>, toDouble: string -> Option<real>)
    requires forall i :: 0 <= i < |products| ==> products[i].body.price.Str? ==>
               toDouble(products[i].body.price.text).Some? && toDouble(products[i].body.price.text).value <= 0.0
    ensures PriceTotal(products, toDouble) == Some(0.0)
    decreases |products|
  {
    if |products| > 0 {
      assert forall i :: 1 <= i < |products| ==> products[i] == products[1..][i - 1];
      PriceTotalNonPositive(products[1..], toDouble);
    }
  }

  /** The converted prices the aggregation keeps, in natural order: those of products with a
      price whose conversion is greater than 0. */
  function CountedPrices(products: seq<Doc<Product>>, toDouble: string -> Option<real>): (r: seq<real>)
    ensures forall x :: x in r ==> x > 0.0
    ensures |r| <= |products|
  {
    if |products| == 0 then []
    else
      var price := products[0].body.price;
      var rest := CountedPrices(products[1..], toDouble);
      if price.Str? && toDouble(price.text).Some? && toDouble(price.text).value > 0.0
      then [toDouble(price.text).value] + rest
      else rest
  }

  /** `$sum` over a group, added up from the last element back. */
  function Sum(xs: seq<real>): real {
    if |xs| == 0 then 0.0 else Sum(xs[..|xs| - 1]) + xs[|xs| - 1]
  }

  lemma {:induction false} SumCons(x: real, xs: seq<real>)
    ensures Sum([x] + xs) == x + Sum(xs)
    decreases |xs|
  {
    if |xs| > 0 {
      assert ([x] + xs)[..|xs|] == [x] + xs[..|xs| - 1];
      SumCons(x, xs[..|xs| - 1]);
    }
  }

  /** When the aggregation succeeds, its total is the sum of the counted prices: products
      with a missing or null price, or one converting to 0 or less, add nothing. */
  lemma {:induction false} PriceTotalIsSum(products: seq<Doc<Product>>, toDouble: string -> Option<real>)
    requires PriceTotal(products, toDouble).Some?
    ensures PriceTotal(products, toDouble).value == Sum(CountedPrices(products, toDouble))
    decreases |products|
  {
    if |products| > 0 {
      assert forall i :: 1 <= i < |products| ==> products[i] == products[1..][i - 1];
      PriceTotalIsSum(products[1..], toDouble);
      var price := products[0].body.price;
      if price.Str? && toDouble(price.text).value > 0.0 {
        SumCons(toDouble(price.text).value, CountedPrices(products[1..], toDouble));
      }
    }
  }

  /** One product alone: nothing without a price, its price when that converts to more than
      0, nothing when it converts to 0 or less, and a failure when it does not convert. */
  lemma PriceTotalOne(d: Doc<Product>, toDouble: string -> Option<real>)
    ensures PriceTotal([d], toDouble)
            == if !d.body.price.Str? then Some(0.0)
               else match toDouble(d.body.price.text)
                 case None => None
                 case Some(v) => Some(if v > 0.0 then v else 0.0)
  {
    assert [d][1..] == [];
  }

  datatype Body =
    | Summary(totalVendors: nat, totalCategories: nat, totalProducts: nat, totalItemPrice: real, activeUsers: nat)
    | Message(text: string)

  datatype Reply = Reply(status: int, body: Body)

  /** `GET /`: the counts of the four collections and the sum of the counted prices, or 500
      when the aggregation fails. */
  function DashboardSummary<V, C, U>(vendors: seq<V>, categories: seq<C>, products: seq<Doc<Product>>,
                                     users: seq<U>, toDouble: string -> Option<real>): (r: Reply)
    ensures r.status == 200 <==> PriceTotal(products, toDouble).Some?
    ensures r.status == 200 ==>
              r.body == Summary(|vendors|, |categories|, |products|, PriceTotal(products, toDouble).value, |users|)
              && r.body.totalItemPrice == Sum(CountedPrices(products, toDouble))
              && r.body.totalItemPrice >= 0.0
    ensures r.status != 200 ==> r == Reply(500, Message("Error fetching dashboard data"))
  {
    match PriceTotal(products, toDouble)
    case None => Reply(500, Message("Error fetching dashboard data"))
    case Some(total) =>
      PriceTotalIsSum(products, toDouble);
      Reply(200, Summary(|vendors|, |categories|, |products|, total, |users|))
  }
}
