/**
 * The outbound messages the bot sends and the builders that assemble them.
 * Each builder yields the payload that the bot hands to the messaging
 * gateway; the gateway itself is an outbox that records what was sent.
 */
module Messages {
  import opened Wrappers
  import opened Strings
  import opened Catalog

  /** A reply button of a button prompt. */
  datatype Button = Button(id: string, title: string)

  /** A row of a list prompt; FAQ rows have no description. */
  datatype Row = Row(id: string, title: string, description: Option<string>)

  datatype Section = Section(title: string, rows: seq<Row>)

  /** The three payload shapes: plain text, a button prompt, a list prompt. */
  datatype Payload =
    | TextBody(text: string)
    | ButtonPrompt(body: string, buttons: seq<Button>)
    | ListPrompt(body: string, buttonLabel: string, sections: seq<Section>)

  /** One message for the gateway: the recipient and the payload. */
  datatype Outbound = Outbound(to: string, payload: Payload)

  function ButtonIds(bs: seq<Button>): (r: seq<string>)
    ensures |r| == |bs| && forall i :: 0 <= i < |bs| ==> r[i] == bs[i].id
  {
    if bs == [] then [] else [bs[0].id] + ButtonIds(bs[1..])
  }

  function RowIds(rows: seq<Row>): (r: seq<string>)
    ensures |r| == |rows| && forall i :: 0 <= i < |rows| ==> r[i] == rows[i].id
  {
    if rows == [] then [] else [rows[0].id] + RowIds(rows[1..])
  }

  function SectionRowIds(sections: seq<Section>): (r: seq<string>)
    ensures forall s, x :: s in sections && x in RowIds(s.rows) ==> x in r
    ensures forall x :: x in r ==> exists s :: s in sections && x in RowIds(s.rows)
  {
    if sections == [] then [] else RowIds(sections[0].rows) + SectionRowIds(sections[1..])
  }

  /** The ids a message offers the user to tap: its buttons, or its list rows section by section. */
  function OfferedIds(m: Outbound): seq<string> {
    match m.payload
    case TextBody(_) => []
    case ButtonPrompt(_, bs) => ButtonIds(bs)
    case ListPrompt(_, _, sections) => SectionRowIds(sections)
  }

  // ----- the three generic builders

  /** `sendText`: a plain text message. */
  function TextMessage(to: string, text: string): (m: Outbound)
    ensures m.to == to && m.payload.TextBody? && m.payload.text == text
    ensures OfferedIds(m) == []
  {
    Outbound(to, TextBody(text))
  }

  /** `sendButtons`: a button prompt offering the buttons in the order given. */
  function ButtonMessage(to: string, body: string, buttons: seq<Button>): (m: Outbound)
    ensures m.to == to && m.payload.ButtonPrompt? && m.payload.body == body
    ensures OfferedIds(m) == ButtonIds(buttons)
  {
    Outbound(to, ButtonPrompt(body, buttons))
  }

  /** `sendList`: a list prompt with a menu label and its sections. */
  function ListMessage(to: string, body: string, buttonLabel: string, sections: seq<Section>): (m: Outbound)
    ensures m.to == to && m.payload.ListPrompt? && m.payload.sections == sections
    ensures OfferedIds(m) == SectionRowIds(sections)
  {
    Outbound(to, ListPrompt(body, buttonLabel, sections))
  }

  // ----- fixed texts

  const MainMenuText := "👋 أهلاً بك في متجرنا!\n\nكيف يمكننا مساعدتك؟"
  const CategoriesText := "🛍️ اختر فئة المنتجات:"
  const ProductListText := "✨ اختر منتجاً لمعرفة التفاصيل:"
  const ProductListLabel := "عرض المنتجات"
  const ProductSectionTitle := "المنتجات المتاحة"
  const NotFoundText := "عذراً، لم يتم العثور على المنتج."
  const FaqListText := "❓ الأسئلة الشائعة - اختر سؤالاً:"
  const FaqListLabel := "عرض الأسئلة"
  const FaqFollowUpText := "هل تحتاج مساعدة أخرى؟"
  const OrderFollowUpText := "هل تريد شيئاً آخر؟"
  const AgentText := "👨‍💼 سيتواصل معك أحد موظفينا في أقرب وقت ممكن.\n\nأوقات العمل: السبت - الخميس، 9 صباحاً - 9 مساءً 🕘"
  const OrderTextHead := "✅ تم استلام طلبك على: *"
  const OrderTextTail := "*\n\nسيتواصل معك فريقنا قريباً لتأكيد الطلب وتفاصيل الدفع. 📦"

  /** How a JavaScript template literal renders a missing value. */
  const MissingValue := "undefined"

  // ----- the menus

  /** `sendMainMenu`: products, FAQ and agent, in that order. */
  function MainMenu(to: string): (m: Outbound)
    ensures m.to == to && m.payload.ButtonPrompt?
    ensures OfferedIds(m) == ["menu_products", "menu_faq", "menu_agent"]
  {
    ButtonMessage(to, MainMenuText, [
      Button("menu_products", "🛍️ تصفح المنتجات"),
      Button("menu_faq", "❓ الأسئلة الشائعة"),
      Button("menu_agent", "👨‍💼 تواصل مع موظف")
    ])
  }

  /** `sendProductCategories`: one button per category of the catalog. */
  function ProductCategories(to: string): (m: Outbound)
    ensures m.to == to && m.payload.ButtonPrompt?
    ensures OfferedIds(m) == ["cat_electronics", "cat_accessories"]
  {
    ButtonMessage(to, CategoriesText, [
      Button("cat_electronics", "📱 إلكترونيات"),
      Button("cat_accessories", "🎧 إكسسوارات")
    ])
  }

  /** The row a product gets in a product list. */
  function ProductRow(p: Product): (r: Row)
    ensures r.id == p.id && r.title == p.name
    ensures r.description == Some(p.price + " | " + p.desc)
  {
    Row(p.id, p.name, Some(p.price + " | " + p.desc))
  }

  /** `items.map(...)` in `sendProductList`: one row per product, in the products' order. */
  function ProductRows(items: seq<Product>): (rows: seq<Row>)
    ensures |rows| == |items|
    ensures forall i :: 0 <= i < |items| ==> rows[i] == ProductRow(items[i])
  {
    if items == [] then [] else [ProductRow(items[0])] + ProductRows(items[1..])
  }

  /**
   * `sendProductList`: a list prompt with a single section whose rows are
   * the category's products; an unknown category gives a section without rows.
   */
  function ProductList(to: string, category: string): (m: Outbound)
    ensures m.to == to && m.payload.ListPrompt? && |m.payload.sections| == 1
    ensures m.payload.sections[0].rows == ProductRows(ItemsOf(category))
  {
    ListMessage(to, ProductListText, ProductListLabel, [Section(ProductSectionTitle, ProductRows(ItemsOf(category)))])
  }

  /** The body of a product card: name, price and description. */
  function DetailText(p: Product): (t: string)
    ensures Contains(t, p.name) && Contains(t, p.price) && Contains(t, p.desc)
  {
    var t := "*" + p.name + "*\n💰 السعر: " + p.price + "\n📝 " + p.desc;
    var a := |"*"|;
    var b := a + |p.name| + |"*\n💰 السعر: "|;
    var c := b + |p.price| + |"\n📝 "|;
    assert OccursAt(t, p.name, a) && OccursAt(t, p.price, b) && OccursAt(t, p.desc, c);
    t
  }

  /** The product card `sendProductDetail` sends for a product it found: order it, or go back. */
  function DetailCard(to: string, productId: string, p: Product): (m: Outbound)
    ensures m.to == to && m.payload.ButtonPrompt? && m.payload.body == DetailText(p)
    ensures OfferedIds(m) == ["order_" + productId, "menu_products"]
  {
    ButtonMessage(to, DetailText(p), [
      Button("order_" + productId, "🛒 طلب الآن"),
      Button("menu_products", "🔙 رجوع")
    ])
  }

  /**
   * `sendProductDetail`: the product card when the id is in the catalog,
   * otherwise a single not-found text and no buttons.
   */
  function ProductDetail(to: string, productId: string): (ms: seq<Outbound>)
    ensures |ms| == 1 && ms[0].to == to
    ensures Find(Products, productId).Some? ==>
              ms[0].payload.ButtonPrompt? && OfferedIds(ms[0]) == ["order_" + productId, "menu_products"]
    ensures Find(Products, productId).None? ==> ms[0] == TextMessage(to, NotFoundText)
  {
    match Find(Products, productId)
    case None => [TextMessage(to, NotFoundText)]
    case Some(p) => [DetailCard(to, productId, p)]
  }

  /** The FAQ list's two fixed sections. */
  const FaqSections: seq<Section> := [
    Section("الشحن والتوصيل", [
      Row("faq_shipping", "🚚 مواعيد التوصيل", None),
      Row("faq_cost", "💵 تكلفة الشحن", None)
    ]),
    Section("الطلبات", [
      Row("faq_return", "🔄 سياسة الإرجاع", None),
      Row("faq_payment", "💳 طرق الدفع", None)
    ])
  ]

  /** `sendFAQ`: two sections of two topics each. */
  function FaqList(to: string): (m: Outbound)
    ensures m.to == to && m.payload.ListPrompt? && |m.payload.sections| == 2
    ensures forall s :: s in m.payload.sections ==> |s.rows| == 2
    ensures OfferedIds(m) == ["faq_shipping", "faq_cost", "faq_return", "faq_payment"]
  {
    ListMessage(to, FaqListText, FaqListLabel, FaqSections)
  }

  /** The prompt after an FAQ answer: another question, or browse products. */
  function FaqFollowUp(to: string): (m: Outbound)
    ensures m.to == to && m.payload.ButtonPrompt?
    ensures OfferedIds(m) == ["menu_faq", "menu_products"]
  {
    ButtonMessage(to, FaqFollowUpText, [
      Button("menu_faq", "❓ سؤال آخر"),
      Button("menu_products", "🛍️ تصفح المنتجات")
    ])
  }

  /** The order confirmation text; a missing product renders as JavaScript does. */
  function OrderConfirmationText(name: Option<string>): (t: string)
    ensures name.Some? ==> Contains(t, name.value)
    ensures name.None? ==> Contains(t, MissingValue)
  {
    var t := OrderTextHead + name.GetOr(MissingValue) + OrderTextTail;
    assert OccursAt(t, name.GetOr(MissingValue), |OrderTextHead|);
    t
  }

  /** The prompt after an order: shop more, or talk to an agent. */
  function OrderFollowUp(to: string): (m: Outbound)
    ensures m.to == to && m.payload.ButtonPrompt?
    ensures OfferedIds(m) == ["menu_products", "menu_agent"]
  {
    ButtonMessage(to, OrderFollowUpText, [
      Button("menu_products", "🛍️ تسوق أكثر"),
      Button("menu_agent", "👨‍💼 تحدث مع موظف")
    ])
  }

  /**
   * The messaging gateway, reduced to an outbox: sending a message appends
   * it to `sent`. This replaces the HTTP call `sendMessage` makes.
   */
  class Gateway {
    var sent: seq<Outbound>

    constructor ()
      ensures sent == []
    {
      sent := [];
    }

    method Send(m: Outbound)
      modifies this
      ensures sent == old(sent) + [m]
    {
      sent := sent + [m];
    }
  }
}
