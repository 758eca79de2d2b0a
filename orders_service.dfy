/** The order store, keyed by normalised (email, order number) (property/orders/service.py). */
module OrderServices {
  import opened Wrappers
  import opened Text
  import opened OrderModels
  import opened Index

  datatype OrderKey = OrderKey(email: string, orderNumber: string)

  /** Order numbers are compared upper-cased and with a leading '#'. */
  function NormalizeOrderNumber(n: string): (r: string)
    ensures StartsWith(r, "#")
    ensures Upper(r) == r
  {
    var u := Upper(n);
    if StartsWith(u, "#") then
      UpperIdempotent(n);
      u
    else
      UpperConcat("#", u);
      UpperIdempotent(n);
      "#" + u
  }

  /** The key an order is stored under and looked up by: lower-cased email, normalised order number. */
  function NormalizeKey(email: string, orderNumber: string): OrderKey {
    OrderKey(Lower(email), NormalizeOrderNumber(orderNumber))
  }

  function KeyOf(o: Order): OrderKey {
    NormalizeKey(o.email, o.orderNumber)
  }

  /** Normalising a normalised key changes nothing, so load-time and lookup-time keys agree. */
  lemma NormalizeKeyIdempotent(email: string, orderNumber: string)
    ensures var k := NormalizeKey(email, orderNumber); NormalizeKey(k.email, k.orderNumber) == k
  {
    LowerIdempotent(email);
    var n := NormalizeOrderNumber(orderNumber);
    assert Upper(n) == n;
    assert StartsWith(Upper(n), "#");
  }

  /** Keys ignore the case of the email and of the order number. */
  lemma NormalizeKeyIgnoresCase(e1: string, n1: string, e2: string, n2: string)
    requires Lower(e1) == Lower(e2) && Upper(n1) == Upper(n2)
    ensures NormalizeKey(e1, n1) == NormalizeKey(e2, n2)
  {
  }

  /** A missing leading '#' is supplied: "W001" and "#W001" name the same order. */
  lemma NormalizeKeyAddsHash(email: string, n: string)
    requires !StartsWith(n, "#")
    ensures NormalizeKey(email, "#" + n) == NormalizeKey(email, n)
  {
    UpperConcat("#", n);
    var u := Upper(n);
    assert |n| > 0 ==> u[0] == UpperChar(n[0]);
    assert !StartsWith(u, "#");
    assert Upper("#" + n) == "#" + u;
    assert StartsWith("#" + u, "#");
  }

  /** The example of the case-insensitivity test: both spellings give the stored key. */
  lemma NormalizeKeyExample()
    ensures NormalizeKey("JOHN.DOE@EXAMPLE.COM", "w001") == OrderKey("john.doe@example.com", "#W001")
    ensures NormalizeKey("john.doe@example.com", "#W001") == OrderKey("john.doe@example.com", "#W001")
  {
    assert Lower("JOHN.DOE@EXAMPLE.COM") == "john.doe@example.com";
    assert Upper("w001") == "W001";
    assert Upper("#W001") == "#W001";
    assert "W001"[..1] == "W";
    assert !StartsWith("W001", "#");
    assert "#" + "W001" == "#W001";
  }

  /** What `_load_orders` builds from the records, in order: a later record with the same key replaces an earlier one. */
  function IndexOrders(records: seq<Order>): map<OrderKey, Order> {
    IndexBy(records, KeyOf)
  }

  /** `lookup`: the order stored under the normalised key, if any. */
  function LookupIn(orders: map<OrderKey, Order>, email: string, orderNumber: string): Option<Order> {
    var key := NormalizeKey(email, orderNumber);
    if key in orders then Some(orders[key]) else None
  }

  /**
   * Lookup over loaded records: found exactly when some record has the same normalised key,
   * and then it is the last such record.
   */
  lemma LookupFindsLastMatchingRecord(records: seq<Order>, email: string, orderNumber: string)
    ensures var key := NormalizeKey(email, orderNumber);
      && (LookupIn(IndexOrders(records), email, orderNumber).Some? <==> exists i | 0 <= i < |records| :: KeyOf(records[i]) == key)
      && (LookupIn(IndexOrders(records), email, orderNumber).None? <==> forall i | 0 <= i < |records| :: KeyOf(records[i]) != key)
      && (LookupIn(IndexOrders(records), email, orderNumber).Some? ==>
          exists i | 0 <= i < |records| ::
            LastWithKey(records, KeyOf, key, i) && LookupIn(IndexOrders(records), email, orderNumber).value == records[i])
  {
    var key := NormalizeKey(email, orderNumber);
    IndexByKeys(records, KeyOf, key);
    if key in IndexOrders(records) {
      IndexByLastWins(records, KeyOf, key);
    }
  }

  /** Lookup ignores the case of both inputs and a missing '#'. */
  lemma LookupIgnoresCaseAndHash(orders: map<OrderKey, Order>, email: string, orderNumber: string)
    requires !StartsWith(orderNumber, "#")
    ensures LookupIn(orders, email, orderNumber) == LookupIn(orders, Lower(email), "#" + Upper(orderNumber))
  {
    LowerIdempotent(email);
    UpperIdempotent(orderNumber);
    var u := Upper(orderNumber);
    assert |orderNumber| > 0 ==> u[0] == UpperChar(orderNumber[0]);
    assert !StartsWith(u, "#");
    NormalizeKeyAddsHash(Lower(email), u);
  }

  class OrderService {
    var orders: map<OrderKey, Order>

    /** `__init__` with `_load_orders`, the records given in file order. */
    constructor (records: seq<Order>)
      ensures orders == IndexOrders(records)
    {
      orders := map[];
      new;
      var i := 0;
      while i < |records|
        invariant 0 <= i <= |records|
        invariant orders == IndexOrders(records[..i])
      {
        var order := records[i];
        var key := NormalizeKey(order.email, order.orderNumber);
        assert records[..i + 1] == records[..i] + [order];
        IndexBySnoc(records[..i], order, KeyOf);
        orders := orders[key := order];
        i := i + 1;
      }
      assert records[..|records|] == records;
    }

    function Lookup(email: string, orderNumber: string): Option<Order>
      reads this
    {
      LookupIn(orders, email, orderNumber)
    }
  }
}
