/**
 * The bot's static catalog: products grouped by category, and the FAQ
 * answers keyed by topic id.
 */
module Catalog {
  import opened Wrappers
  import opened Strings

  datatype Product = Product(id: string, name: string, price: string, desc: string)

  /** One key of the product table together with its products, in table order. */
  datatype Category = Category(key: string, items: seq<Product>)

  /** The product table, categories in insertion order (the order `Object.values` yields). */
  const Products: seq<Category> := [
    Category("electronics", [
      Product("prod_1", "سماعات بلوتوث", "150 ر.س", "جودة صوت عالية، بطارية 20 ساعة"),
      Product("prod_2", "ساعة ذكية", "300 ر.س", "شاشة AMOLED، مقاومة للماء")
    ]),
    Category("accessories", [
      Product("prod_3", "كفر هاتف", "50 ر.س", "متوفر لجميع الموديلات"),
      Product("prod_4", "شاحن لاسلكي", "80 ر.س", "شحن سريع 15W")
    ])
  ]

  /** The FAQ table: topic id to answer text. Membership means an own key of the table. */
  const FaqAnswers: map<string, string> := map[
    "faq_shipping" := "🚚 *مواعيد التوصيل*\nيتم التوصيل خلال 2-5 أيام عمل داخل المملكة.",
    "faq_cost" := "💵 *تكلفة الشحن*\nالشحن مجاني للطلبات فوق 200 ر.س، وبتكلفة 25 ر.س للطلبات الأقل.",
    "faq_return" := "🔄 *سياسة الإرجاع*\nيمكن إرجاع المنتجات خلال 14 يوماً من الاستلام بشرط أن تكون بحالتها الأصلية.",
    "faq_payment" := "💳 *طرق الدفع*\nنقبل: مدى، فيزا، ماستركارد، تحويل بنكي، والدفع عند الاستلام."
  ]

  /** Every product of the given categories, category by category. */
  function Flatten(cats: seq<Category>): seq<Product> {
    if cats == [] then [] else cats[0].items + Flatten(cats[1..])
  }

  /** All products in the catalog, in catalog order. */
  function AllProducts(): seq<Product> {
    Flatten(Products)
  }

  /** No two products share an id. */
  predicate UniqueIds(ps: seq<Product>) {
    forall i, j :: 0 <= i < j < |ps| ==> ps[i].id != ps[j].id
  }

  /** `PRODUCTS[key] || []`: the products of a category, none for an unknown key. */
  function ItemsOf(key: string): (r: seq<Product>)
    ensures forall i :: 0 <= i < |Products| && Products[i].key == key ==> r == Products[i].items
    ensures (forall i :: 0 <= i < |Products| ==> Products[i].key != key) ==> r == []
  {
    if key == "electronics" then Products[0].items
    else if key == "accessories" then Products[1].items
    else []
  }

  /** `items.find(x => x.id === id)`: the first product with that id. */
  function FirstWithId(items: seq<Product>, id: string): (r: Option<Product>)
    ensures r.Some? ==> r.value in items && r.value.id == id
    ensures r.None? <==> forall p :: p in items ==> p.id != id
  {
    if items == [] then None
    else if items[0].id == id then Some(items[0])
    else
      assert forall p :: p in items ==> p == items[0] || p in items[1..];
      FirstWithId(items[1..], id)
  }

  /** The product found is the first in the list with that id: none before it has the id. */
  lemma {:induction false} FirstWithIdIsFirst(items: seq<Product>, id: string)
    requires FirstWithId(items, id).Some?
    ensures exists k :: 0 <= k < |items| && items[k] == FirstWithId(items, id).value
                        && forall j :: 0 <= j < k ==> items[j].id != id
  {
    if items[0].id != id {
      FirstWithIdIsFirst(items[1..], id);
      var k :| 0 <= k < |items[1..]| && items[1..][k] == FirstWithId(items[1..], id).value
               && forall j :: 0 <= j < k ==> items[1..][j].id != id;
      assert items[k + 1] == FirstWithId(items, id).value;
      assert forall j :: 1 <= j < k + 1 ==> items[j].id == items[1..][j - 1].id;
    } else {
      assert items[0] == FirstWithId(items, id).value;
    }
  }

  /**
   * The search `findProduct` performs: category by category, first match wins.
   * It returns a product of the categories with the requested id, or
   * not-found exactly when none has it; it never fails.
   */
  function Find(cats: seq<Category>, id: string): (r: Option<Product>)
    ensures r.Some? ==> r.value in Flatten(cats) && r.value.id == id
    ensures r.None? <==> forall p :: p in Flatten(cats) ==> p.id != id
  {
    if cats == [] then None
    else
      assert Flatten(cats) == cats[0].items + Flatten(cats[1..]);
      match FirstWithId(cats[0].items, id)
      case Some(p) => Some(p)
      case None => Find(cats[1..], id)
  }

  /** `findProduct(id)`: scans the categories in order and stops at the first product with that id. */
  method FindProduct(id: string) returns (r: Option<Product>)
    ensures r == Find(Products, id)
    ensures r.Some? ==> r.value in AllProducts() && r.value.id == id
    ensures r.None? <==> forall p :: p in AllProducts() ==> p.id != id
  {
    var i := 0;
    while i < |Products|
      invariant 0 <= i <= |Products|
      invariant Find(Products, id) == Find(Products[i..], id)
    {
      assert Products[i..][1..] == Products[i + 1..];
      var p := FirstWithId(Products[i].items, id);
      if p.Some? {
        return p;
      }
      i := i + 1;
    }
    return None;
  }

  /** Searching category by category is searching the flattened list. */
  lemma {:induction false} FindIsFirstInFlatten(cats: seq<Category>, id: string)
    ensures Find(cats, id) == FirstWithId(Flatten(cats), id)
  {
    if cats != [] {
      FindIsFirstInFlatten(cats[1..], id);
      FirstWithIdAppend(cats[0].items, Flatten(cats[1..]), id);
    }
  }

  lemma {:induction false} FirstWithIdAppend(a: seq<Product>, b: seq<Product>, id: string)
    ensures FirstWithId(a + b, id) == match FirstWithId(a, id)
                                     case Some(p) => Some(p)
                                     case None => FirstWithId(b, id)
  {
    if a != [] {
      assert (a + b)[1..] == a[1..] + b;
      FirstWithIdAppend(a[1..], b, id);
    } else {
      assert a + b == b;
    }
  }

  /** With unique ids, the search finds every listed product under its own id. */
  lemma {:induction false} FirstWithIdRoundTrip(ps: seq<Product>, p: Product)
    requires UniqueIds(ps)
    requires p in ps
    ensures FirstWithId(ps, p.id) == Some(p)
  {
    if ps[0] != p {
      assert p in ps[1..];
      var k :| 0 <= k < |ps| && ps[k] == p;
      assert k > 0;
      assert ps[0].id != p.id;
      FirstWithIdRoundTrip(ps[1..], p);
    }
  }

  /** The catalog's product ids are distinct. */
  lemma CatalogIdsUnique()
    ensures UniqueIds(AllProducts())
  {
    assert AllProducts() == Products[0].items + Products[1].items;
  }

  /** The catalog's product ids all carry the `prod_` prefix the router looks for. */
  lemma CatalogIdsArePrefixed()
    ensures forall p :: p in AllProducts() ==> StartsWith(p.id, "prod_")
  {
    assert AllProducts() == Products[0].items + Products[1].items;
  }

  /** `findProduct(p.id)` returns `p` for every product of the catalog. */
  lemma FindRoundTrip(p: Product)
    requires p in AllProducts()
    ensures Find(Products, p.id) == Some(p)
  {
    CatalogIdsUnique();
    FindIsFirstInFlatten(Products, p.id);
    FirstWithIdRoundTrip(AllProducts(), p);
  }

  /** Product ids and FAQ ids never collide, since both are matched in one routing table. */
  lemma ProductAndFaqIdsDisjoint()
    ensures forall p :: p in AllProducts() ==> p.id !in FaqAnswers
  {
    assert AllProducts() == Products[0].items + Products[1].items;
  }
}
