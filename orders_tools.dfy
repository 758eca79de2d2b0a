/** The `lookup_order` tool: an order's status, its products by name and its tracking link (property/orders/tools.py). */
module OrderTools {
  import opened Wrappers
  import opened Text
  import opened Json
  import opened OrderModels
  import opened OrderServices
  import opened ProductModels
  import opened ProductServices

  /** One entry of the "products" list: a SKU and the name shown for it. */
  datatype ProductLine = ProductLine(sku: string, name: string)

  /** The tracking keys: the URL (null when the number is empty) and the number itself. */
  datatype TrackingInfo = TrackingInfo(url: Option<string>, number: string)

  /** What `lookup_order` reports before it is encoded as JSON. */
  datatype OrderReport =
    | OrderNotFound
    | OrderFound(customerName: string, orderStatus: string, products: seq<ProductLine>, tracking: Option<TrackingInfo>)
    | LookupFailed(detail: string)

  /** The name shown for a SKU that the catalog does not hold. */
  function MissingName(sku: string): string {
    "Product " + sku + " (not found in catalog)"
  }

  /** The ordered SKUs the catalog holds, in order. */
  function KnownSkus(skus: seq<string>, index: map<string, Product>): seq<string>
    decreases |skus|
  {
    if skus == [] then []
    else
      var last := skus[|skus| - 1];
      KnownSkus(skus[..|skus| - 1], index) + (if last in index then [last] else [])
  }

  /** The ordered SKUs the catalog lacks, in order. */
  function UnknownSkus(skus: seq<string>, index: map<string, Product>): seq<string>
    decreases |skus|
  {
    if skus == [] then []
    else
      var last := skus[|skus| - 1];
      UnknownSkus(skus[..|skus| - 1], index) + (if last in index then [] else [last])
  }

  function FoundLine(sku: string, index: map<string, Product>): ProductLine
    requires sku in index
  {
    ProductLine(sku, index[sku].name)
  }

  function MissingLine(sku: string): ProductLine {
    ProductLine(sku, MissingName(sku))
  }

  /** The products list: catalog-found SKUs with their names, then the missing SKUs with the placeholder name. */
  function ResolveSkus(skus: seq<string>, index: map<string, Product>): seq<ProductLine> {
    var known := KnownSkus(skus, index);
    var unknown := UnknownSkus(skus, index);
    KnownSkusInIndex(skus, index);
    seq(|known|, k requires 0 <= k < |known| => FoundLine(known[k], index))
      + seq(|unknown|, k requires 0 <= k < |unknown| => MissingLine(unknown[k]))
  }

  /** Every known SKU is in the catalog and no unknown one is. */
  lemma {:induction false} KnownSkusInIndex(skus: seq<string>, index: map<string, Product>)
    ensures forall k | 0 <= k < |KnownSkus(skus, index)| :: KnownSkus(skus, index)[k] in index
    ensures forall k | 0 <= k < |UnknownSkus(skus, index)| :: UnknownSkus(skus, index)[k] !in index
    decreases |skus|
  {
    if skus != [] {
      KnownSkusInIndex(skus[..|skus| - 1], index);
    }
  }

  /** Together the known and unknown SKUs are exactly the ordered SKUs, each as often as it was ordered. */
  lemma {:induction false} SkusPartitioned(skus: seq<string>, index: map<string, Product>)
    ensures multiset(KnownSkus(skus, index)) + multiset(UnknownSkus(skus, index)) == multiset(skus)
    ensures |KnownSkus(skus, index)| + |UnknownSkus(skus, index)| == |skus|
    decreases |skus|
  {
    if skus != [] {
      var n := |skus| - 1;
      SkusPartitioned(skus[..n], index);
      assert skus == skus[..n] + [skus[n]];
    }
  }

  /** Both parts keep the order of the order: splitting the SKU list splits each part the same way. */
  lemma {:induction false} PartitionStable(a: seq<string>, b: seq<string>, index: map<string, Product>)
    ensures KnownSkus(a + b, index) == KnownSkus(a, index) + KnownSkus(b, index)
    ensures UnknownSkus(a + b, index) == UnknownSkus(a, index) + UnknownSkus(b, index)
    decreases |b|
  {
    if b == [] {
      assert a + b == a;
    } else {
      var n := |b| - 1;
      assert (a + b)[..|a + b| - 1] == a + b[..n];
      PartitionStable(a, b[..n], index);
    }
  }

  /** The known SKUs of an order that lacks nothing from the catalog are all of its SKUs. */
  lemma {:induction false} AllKnown(skus: seq<string>, index: map<string, Product>)
    requires forall k | 0 <= k < |skus| :: skus[k] in index
    ensures KnownSkus(skus, index) == skus
    ensures UnknownSkus(skus, index) == []
    decreases |skus|
  {
    if skus != [] {
      AllKnown(skus[..|skus| - 1], index);
    }
  }

  /** The SKUs of a products list, in order. */
  function LineSkus(lines: seq<ProductLine>): seq<string> {
    seq(|lines|, k requires 0 <= k < |lines| => lines[k].sku)
  }

  /** Read off the products list, the SKUs are the known ones followed by the unknown ones. */
  lemma ResolvedSkusInOrder(skus: seq<string>, index: map<string, Product>)
    ensures LineSkus(ResolveSkus(skus, index)) == KnownSkus(skus, index) + UnknownSkus(skus, index)
  {
    var lines := ResolveSkus(skus, index);
    var known := KnownSkus(skus, index);
    var unknown := UnknownSkus(skus, index);
    KnownSkusInIndex(skus, index);
    forall k | 0 <= k < |lines| ensures lines[k].sku == (known + unknown)[k] {
      if k < |known| {
        assert lines[k] == FoundLine(known[k], index);
      } else {
        assert lines[k] == MissingLine(unknown[k - |known|]);
      }
    }
  }

  /**
   * The products list has one entry per ordered SKU; found entries come first and carry the catalog
   * name, the missing ones follow and carry the placeholder name.
   */
  lemma ResolveSkusShape(skus: seq<string>, index: map<string, Product>)
    ensures var lines := ResolveSkus(skus, index);
      && |lines| == |skus|
      && multiset(LineSkus(lines)) == multiset(skus)
      && (forall k | 0 <= k < |KnownSkus(skus, index)| :: lines[k].sku in index && lines[k].name == index[lines[k].sku].name)
      && (forall k | |KnownSkus(skus, index)| <= k < |lines| :: lines[k].sku !in index && lines[k].name == MissingName(lines[k].sku))
  {
    var lines := ResolveSkus(skus, index);
    var known := KnownSkus(skus, index);
    var unknown := UnknownSkus(skus, index);
    SkusPartitioned(skus, index);
    KnownSkusInIndex(skus, index);
    ResolvedSkusInOrder(skus, index);
    forall k | 0 <= k < |known| ensures lines[k].sku in index && lines[k].name == index[lines[k].sku].name {
      assert lines[k] == FoundLine(known[k], index);
    }
    forall k | |known| <= k < |lines| ensures lines[k].sku !in index && lines[k].name == MissingName(lines[k].sku) {
      assert lines[k] == MissingLine(unknown[k - |known|]);
    }
  }

  /** `lookup_order` on decoded arguments: a non-string argument fails on the first method call it meets. */
  function Report(orders: map<OrderKey, Order>, index: map<string, Product>, email: Json, orderNumber: Json): OrderReport {
    if !email.JStr? then LookupFailed("'" + TypeName(email) + "' object has no attribute 'lower'")
    else if !orderNumber.JStr? then LookupFailed("'" + TypeName(orderNumber) + "' object has no attribute 'upper'")
    else match LookupIn(orders, email.s, orderNumber.s)
      case None => OrderNotFound
      case Some(order) =>
        OrderFound(order.customerName, order.status, ResolveSkus(order.productsOrdered, index),
          if order.HasTracking() then Some(TrackingInfo(order.TrackingUrl(), order.trackingNumber.value)) else None)
  }

  /** An unknown order (for string arguments) is reported as not found, and only then. */
  lemma NotFoundExactlyWhenNoOrder(orders: map<OrderKey, Order>, index: map<string, Product>, email: string, orderNumber: string)
    ensures Report(orders, index, JStr(email), JStr(orderNumber)) == OrderNotFound
      <==> NormalizeKey(email, orderNumber) !in orders
  {
  }

  /**
   * A found order reports its customer and status, its products resolved against the catalog, and tracking
   * keys exactly when it has a tracking number.
   */
  lemma FoundReportsOrder(orders: map<OrderKey, Order>, index: map<string, Product>, email: string, orderNumber: string)
    requires NormalizeKey(email, orderNumber) in orders
    ensures var order := orders[NormalizeKey(email, orderNumber)];
      var r := Report(orders, index, JStr(email), JStr(orderNumber));
      && r.OrderFound?
      && r.customerName == order.customerName
      && r.orderStatus == order.status
      && |r.products| == |order.productsOrdered|
      && (r.tracking.Some? <==> order.HasTracking())
      && (r.tracking.Some? ==> r.tracking.value.number == order.trackingNumber.value && r.tracking.value.url == order.TrackingUrl())
  {
    ResolveSkusShape(orders[NormalizeKey(email, orderNumber)].productsOrdered, index);
  }

  /** A tracking number is always reported when present, but its URL is null when the number is empty. */
  lemma EmptyTrackingNumberReportedWithoutUrl(orders: map<OrderKey, Order>, index: map<string, Product>, email: string, orderNumber: string)
    requires NormalizeKey(email, orderNumber) in orders
    requires orders[NormalizeKey(email, orderNumber)].trackingNumber == Some("")
    ensures Report(orders, index, JStr(email), JStr(orderNumber)).tracking == Some(TrackingInfo(None, ""))
  {
  }

  /** Non-string arguments are reported as failures naming the attribute Python could not find. */
  lemma NonStringArgumentsFail(orders: map<OrderKey, Order>, index: map<string, Product>, email: Json, orderNumber: Json)
    requires !email.JStr? || !orderNumber.JStr?
    ensures Report(orders, index, email, orderNumber).LookupFailed?
    ensures !email.JStr? ==> Report(orders, index, email, orderNumber).detail == "'" + TypeName(email) + "' object has no attribute 'lower'"
    ensures email.JStr? && !orderNumber.JStr? ==>
      Report(orders, index, email, orderNumber).detail == "'" + TypeName(orderNumber) + "' object has no attribute 'upper'"
  {
  }

  function LineJson(line: ProductLine): Json {
    JObject(map["sku" := JStr(line.sku), "name" := JStr(line.name)])
  }

  /** The document `json.dumps` receives. */
  function ReportJson(r: OrderReport): Json {
    match r
    case OrderNotFound => JObject(map["error" := JStr("Order not found")])
    case LookupFailed(d) => JObject(map["error" := JStr("Failed to lookup order: " + d)])
    case OrderFound(name, status, lines, tracking) =>
      var base := map[
        "found" := JBool(true),
        "customer_name" := JStr(name),
        "order_status" := JStr(status),
        "products" := JArray(seq(|lines|, k requires 0 <= k < |lines| => LineJson(lines[k])))];
      match tracking
      case None => JObject(base)
      case Some(t) =>
        JObject(base["tracking_url" := (if t.url.Some? then JStr(t.url.value) else JNull)]["tracking_number" := JStr(t.number)])
  }

  /** The encoded report: an error object for failures and misses, the order object otherwise, with tracking keys exactly when tracked. */
  lemma ReportJsonShape(r: OrderReport)
    ensures r == OrderNotFound ==> ReportJson(r) == JObject(map["error" := JStr("Order not found")])
    ensures r.LookupFailed? ==> ReportJson(r).fields.Keys == {"error"}
    ensures r.OrderFound? ==> ReportJson(r).fields["found"] == JBool(true) && "error" !in ReportJson(r).fields
    ensures r.OrderFound? ==> ("tracking_url" in ReportJson(r).fields <==> r.tracking.Some?)
    ensures r.OrderFound? ==> ("tracking_number" in ReportJson(r).fields <==> r.tracking.Some?)
    ensures r.OrderFound? ==> ReportJson(r).fields["products"].items == seq(|r.products|, k requires 0 <= k < |r.products| => LineJson(r.products[k]))
  {
  }

  /** `lookup_order`, with both services given: the order store and the product catalog. */
  method LookupOrder(orderService: OrderService, productService: ProductService, email: Json, orderNumber: Json)
    returns (r: OrderReport)
    requires productService.Valid()
    ensures r == Report(orderService.orders, productService.skuIndex, email, orderNumber)
  {
    if !email.JStr? {
      return LookupFailed("'" + TypeName(email) + "' object has no attribute 'lower'");
    }
    if !orderNumber.JStr? {
      return LookupFailed("'" + TypeName(orderNumber) + "' object has no attribute 'upper'");
    }
    var found := orderService.Lookup(email.s, orderNumber.s);
    if found.None? {
      return OrderNotFound;
    }
    var order := found.value;
    var skus := order.productsOrdered;
    ghost var index := productService.skuIndex;
    var resolved: seq<ProductLine> := [];
    var missing: seq<string> := [];
    var i := 0;
    while i < |skus|
      invariant 0 <= i <= |skus|
      invariant missing == UnknownSkus(skus[..i], index)
      invariant |resolved| == |KnownSkus(skus[..i], index)|
      invariant forall k | 0 <= k < |resolved| ::
        KnownSkus(skus[..i], index)[k] in index && resolved[k] == FoundLine(KnownSkus(skus[..i], index)[k], index)
    {
      var sku := skus[i];
      assert skus[..i + 1][..i] == skus[..i];
      KnownSkusInIndex(skus[..i + 1], index);
      var product := productService.GetBySku(sku);
      if product.Some? {
        resolved := resolved + [ProductLine(sku, product.value.name)];
      } else {
        missing := missing + [sku];
      }
      i := i + 1;
    }
    assert skus[..|skus|] == skus;
    ghost var known := KnownSkus(skus, index);
    ghost var foundPart := resolved;
    var j := 0;
    while j < |missing|
      invariant 0 <= j <= |missing|
      invariant |resolved| == |known| + j
      invariant resolved[..|known|] == foundPart
      invariant forall k | 0 <= k < j :: resolved[|known| + k] == MissingLine(missing[k])
    {
      resolved := resolved + [ProductLine(missing[j], "Product " + missing[j] + " (not found in catalog)")];
      j := j + 1;
    }
    var tracking := if order.HasTracking() then Some(TrackingInfo(order.TrackingUrl(), order.trackingNumber.value)) else None;
    r := OrderFound(order.customerName, order.status, resolved, tracking);
  }
}
