/**
 * The admin dashboard's figures: product and order counts, revenue from
 * completed orders, the average completed order, and the two percentages.
 */
module AdminDashboardPage {

  import opened Types
  import Seqs

  const Pending := "pending"
  const Completed := "completed"
  const Cancelled := "cancelled"

  /** `products.filter(p => p.is_active).length`. */
  function ActiveCount(products: seq<Product>): nat
  {
    |Seqs.Filter(products, (p: Product) => p.isActive)|
  }

  /** `products.filter(p => !p.is_active).length`. */
  function InactiveCount(products: seq<Product>): nat
  {
    |Seqs.Filter(products, (p: Product) => !p.isActive)|
  }

  /** Every product is either active or inactive. */
  lemma ActivePlusInactive(products: seq<Product>)
    ensures ActiveCount(products) + InactiveCount(products) == |products|
  {
    Seqs.FilterPartition(products, (p: Product) => p.isActive, (p: Product) => !p.isActive);
  }

  /** `o => o.status === s`. */
  function HasStatus(s: string): OrderRow -> bool
  {
    (o: OrderRow) => o.status == s
  }

  /** `orders.filter(o => o.status === s).length`. */
  function CountWithStatus(orders: seq<OrderRow>, s: string): nat
  {
    |Seqs.Filter(orders, HasStatus(s))|
  }

  /** The three status counts never exceed the number of orders. */
  lemma StatusCountsBounded(orders: seq<OrderRow>)
    ensures CountWithStatus(orders, Pending) + CountWithStatus(orders, Completed) + CountWithStatus(orders, Cancelled) <= |orders|
  {
    Seqs.FilterExclusive3(orders, HasStatus(Pending), HasStatus(Completed), HasStatus(Cancelled));
  }

  /** The sum of `total_amount` over a list of orders. */
  function SumAmounts(orders: seq<OrderRow>): real
  {
    if orders == [] then 0.0 else orders[0].totalAmount + SumAmounts(orders[1..])
  }

  /** `totalRevenue`: completed orders, then the reduce over their amounts. */
  function TotalRevenue(orders: seq<OrderRow>): real
  {
    SumAmounts(Seqs.Filter(orders, HasStatus(Completed)))
  }

  /** The same figure in one pass: each order adds its amount if completed, else nothing. */
  function CompletedAmountsSum(orders: seq<OrderRow>): real
  {
    if orders == [] then 0.0
    else (if orders[0].status == Completed then orders[0].totalAmount else 0.0) + CompletedAmountsSum(orders[1..])
  }

  /** Revenue counts completed orders only, each once. */
  lemma {:induction false} TotalRevenueIsCompletedSum(orders: seq<OrderRow>)
    ensures TotalRevenue(orders) == CompletedAmountsSum(orders)
    decreases |orders|
  {
    if orders != [] {
      TotalRevenueIsCompletedSum(orders[1..]);
      var rest := Seqs.Filter(orders[1..], HasStatus(Completed));
      if orders[0].status == Completed {
        assert Seqs.Filter(orders, HasStatus(Completed)) == [orders[0]] + rest;
        assert ([orders[0]] + rest)[1..] == rest;
      } else {
        assert Seqs.Filter(orders, HasStatus(Completed)) == rest;
      }
    }
  }

  /** No completed order means no revenue; non-negative amounts give non-negative revenue. */
  lemma {:induction false} RevenueBounds(orders: seq<OrderRow>)
    ensures CountWithStatus(orders, Completed) == 0 ==> TotalRevenue(orders) == 0.0
    ensures (forall i :: 0 <= i < |orders| ==> orders[i].totalAmount >= 0.0) ==> TotalRevenue(orders) >= 0.0
    decreases |orders|
  {
    TotalRevenueIsCompletedSum(orders);
    if orders != [] {
      RevenueBounds(orders[1..]);
      TotalRevenueIsCompletedSum(orders[1..]);
      var rest := Seqs.Filter(orders[1..], HasStatus(Completed));
      if orders[0].status == Completed {
        assert Seqs.Filter(orders, HasStatus(Completed)) == [orders[0]] + rest;
      } else {
        assert Seqs.Filter(orders, HasStatus(Completed)) == rest;
      }
    }
  }

  /** `averageOrderValue`: revenue per completed order, 0 when there is none. */
  function AverageOrderValue(orders: seq<OrderRow>): (r: real)
    ensures CountWithStatus(orders, Completed) == 0 ==> r == 0.0
    ensures CountWithStatus(orders, Completed) > 0 ==> r * (CountWithStatus(orders, Completed) as real) == TotalRevenue(orders)
  {
    var completed := CountWithStatus(orders, Completed);
    if completed > 0 then TotalRevenue(orders) / (completed as real) else 0.0
  }

  /** `whole > 0 ? (part / whole) * 100 : 0`, before `toFixed(1)`. */
  function Percent(part: nat, whole: nat): (r: real)
    ensures whole == 0 ==> r == 0.0
    ensures part <= whole ==> 0.0 <= r <= 100.0
    ensures whole > 0 && part == whole ==> r == 100.0
  {
    if whole > 0 then (part as real / whole as real) * 100.0 else 0.0
  }

  /** The success rate: completed orders as a share of all orders. */
  function SuccessRate(orders: seq<OrderRow>): real
  {
    Percent(CountWithStatus(orders, Completed), |orders|)
  }

  /** Inventory health: active products as a share of all products. */
  function InventoryHealth(products: seq<Product>): real
  {
    Percent(ActiveCount(products), |products|)
  }

  /** Both percentages are 0 on an empty list and lie between 0 and 100 otherwise. */
  lemma PercentagesInRange(orders: seq<OrderRow>, products: seq<Product>)
    ensures orders == [] ==> SuccessRate(orders) == 0.0
    ensures products == [] ==> InventoryHealth(products) == 0.0
    ensures 0.0 <= SuccessRate(orders) <= 100.0
    ensures 0.0 <= InventoryHealth(products) <= 100.0
  {
  }
}
