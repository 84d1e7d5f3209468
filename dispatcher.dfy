/**
 * The dispatcher: one inbound message in, the replies out. A structured
 * reply carries an id, and the id alone decides the action through a
 * first-match-wins routing table; free text always gets the main menu.
 */
module Dispatcher {
  import opened Wrappers
  import opened Strings
  import opened Catalog
  import opened Messages

  /** What an inbound message carries, by its `type`. */
  datatype MessageKind =
    | Interactive(buttonReplyId: Option<string>, listReplyId: Option<string>)
    | Text(body: Option<string>)
    | Unsupported(kind: string)

  datatype InboundMessage = InboundMessage(from: string, kind: MessageKind)

  /** The words the free-text branch recognises as a greeting, after trimming and lower-casing. */
  const Greetings: seq<string> := ["مرحبا", "هلا", "hi", "hello", "start", "ابدأ"]

  /**
   * `button_reply?.id || list_reply?.id`: the button id unless it is missing
   * or empty, otherwise the list id as it is.
   */
  function SelectedId(buttonReplyId: Option<string>, listReplyId: Option<string>): (r: Option<string>)
    ensures buttonReplyId.Some? && buttonReplyId.value != "" ==> r == buttonReplyId
    ensures (buttonReplyId.None? || buttonReplyId.value == "") ==> r == listReplyId
  {
    if buttonReplyId.Some? && buttonReplyId.value != "" then buttonReplyId else listReplyId
  }

  /**
   * The id a message is routed on: the selected id of a structured reply,
   * unless it is missing or empty (`if (!id) return;`). Text and other kinds
   * are never routed.
   */
  function RoutedId(message: InboundMessage): (r: Option<string>)
    ensures r.Some? ==> r.value != ""
    ensures message.kind.Interactive?
            && SelectedId(message.kind.buttonReplyId, message.kind.listReplyId).Some?
            && SelectedId(message.kind.buttonReplyId, message.kind.listReplyId).value != "" ==>
              r == SelectedId(message.kind.buttonReplyId, message.kind.listReplyId)
    ensures message.kind.Interactive?
            && (SelectedId(message.kind.buttonReplyId, message.kind.listReplyId).None?
                || SelectedId(message.kind.buttonReplyId, message.kind.listReplyId).value == "") ==>
              r == None
    ensures !message.kind.Interactive? ==> r == None
  {
    match message.kind
    case Interactive(b, l) =>
      var id := SelectedId(b, l);
      if id.None? || id.value == "" then None else id
    case _ => None
  }

  /** The actions the routing table can choose. */
  datatype Action =
    | ShowCategories
    | ShowProductList(category: string)
    | ShowProductDetail(productId: string)
    | ShowFaqList
    | AnswerFaq(faqId: string)
    | ConfirmOrder(productId: string)
    | HandOffToAgent
    | Ignore

  /**
   * The routing table, rule by rule in the order the source tests them.
   * Each action carries what its rule derived from the id: the category of a
   * category id, the full `prod_` id, the FAQ key, or the `order_` id minus
   * its prefix.
   */
  function Route(id: string): (a: Action)
    ensures a.ShowProductList? ==> a.category in ["electronics", "accessories"]
    ensures a.ShowProductDetail? ==> a.productId == id && StartsWith(id, "prod_")
    ensures a.AnswerFaq? ==> a.faqId == id && id in FaqAnswers && !StartsWith(id, "prod_")
    ensures a.ConfirmOrder? ==>
              StartsWith(id, "order_") && a.productId == id[|"order_"|..]
              && !StartsWith(id, "prod_") && id !in FaqAnswers
  {
    if id == "menu_products" then ShowCategories
    else if id == "cat_electronics" then ShowProductList("electronics")
    else if id == "cat_accessories" then ShowProductList("accessories")
    else if StartsWith(id, "prod_") then ShowProductDetail(id)
    else if id == "menu_faq" then ShowFaqList
    else if id in FaqAnswers then AnswerFaq(id)
    else if StartsWith(id, "order_") then
      ReplaceFirstStripsPrefix(id, "order_");
      ConfirmOrder(ReplaceFirst(id, "order_", ""))
    else if id == "menu_agent" then HandOffToAgent
    else Ignore
  }

  /**
   * The messages an action sends to `to`, in sending order: at most two,
   * all addressed to `to`, and none only when nothing matched.
   */
  function Perform(to: string, action: Action): (r: seq<Outbound>)
    ensures |r| <= 2
    ensures forall o :: o in r ==> o.to == to
    ensures r == [] <==> action == Ignore || (action.AnswerFaq? && action.faqId !in FaqAnswers)
  {
    match action
    case ShowCategories => [ProductCategories(to)]
    case ShowProductList(category) => [ProductList(to, category)]
    case ShowProductDetail(productId) => ProductDetail(to, productId)
    case ShowFaqList => [FaqList(to)]
    case AnswerFaq(faqId) =>
      if faqId in FaqAnswers then [TextMessage(to, FaqAnswers[faqId]), FaqFollowUp(to)] else []
    case ConfirmOrder(productId) =>
      var p := Find(Products, productId);
      [TextMessage(to, OrderConfirmationText(if p.Some? then Some(p.value.name) else None)), OrderFollowUp(to)]
    case HandOffToAgent => [TextMessage(to, AgentText)]
    case Ignore => []
  }

  /**
   * Everything `handleMessage` sends for one inbound message, in order: at
   * most two messages, all addressed to the sender.
   */
  function Replies(message: InboundMessage): (r: seq<Outbound>)
    ensures |r| <= 2
    ensures forall o :: o in r ==> o.to == message.from
  {
    match message.kind
    case Text(body) => if body.None? then [] else [MainMenu(message.from)]
    case _ =>
      match RoutedId(message)
      case None => []
      case Some(id) => Perform(message.from, Route(id))
  }

  /** `sendProductDetail`: looks the product up and sends its card, or the not-found text. */
  method SendProductDetail(to: string, productId: string, gateway: Gateway)
    modifies gateway
    ensures gateway.sent == old(gateway.sent) + ProductDetail(to, productId)
  {
    var p := FindProduct(productId);
    if p.None? {
      gateway.Send(TextMessage(to, NotFoundText));
      return;
    }
    gateway.Send(DetailCard(to, productId, p.value));
  }

  /**
   * `handleMessage`: classifies the message, picks the id, runs the routing
   * rules in order and sends each reply through the gateway. `threw` is true
   * when the source would raise (a text message without a body); the
   * webhook boundary swallows that, and nothing has been sent.
   */
  method HandleMessage(message: InboundMessage, gateway: Gateway) returns (threw: bool)
    modifies gateway
    ensures gateway.sent == old(gateway.sent) + Replies(message)
    ensures threw <==> message.kind == Text(None)
  {
    var from := message.from;
    var id: Option<string> := None;
    match message.kind {
      case Interactive(b, l) =>
        id := SelectedId(b, l);
      case Text(body) =>
        if body.None? {
          return true;
        }
        var text := LowerAscii(Trim(body.value));
        if text in Greetings {
          gateway.Send(MainMenu(from));
          return false;
        }
        gateway.Send(MainMenu(from));
        return false;
      case Unsupported(_) =>
    }
    threw := false;
    if id.None? || id.value == "" {
      return;
    }
    Dispatch(from, id.value, gateway);
  }

  /** The routing rules of `handleMessage`, tried in order until one matches. */
  method Dispatch(from: string, s: string, gateway: Gateway)
    modifies gateway
    ensures gateway.sent == old(gateway.sent) + Perform(from, Route(s))
  {
    if s == "menu_products" {
      gateway.Send(ProductCategories(from));
      return;
    }
    if s == "cat_electronics" {
      gateway.Send(ProductList(from, "electronics"));
      return;
    }
    if s == "cat_accessories" {
      gateway.Send(ProductList(from, "accessories"));
      return;
    }
    if StartsWith(s, "prod_") {
      SendProductDetail(from, s, gateway);
      return;
    }
    if s == "menu_faq" {
      gateway.Send(FaqList(from));
      return;
    }
    if s in FaqAnswers {
      SendFaqAnswer(from, s, gateway);
      return;
    }
    if StartsWith(s, "order_") {
      SendOrderConfirmation(from, ReplaceFirst(s, "order_", ""), gateway);
      return;
    }
    assert Route(s) == if s == "menu_agent" then HandOffToAgent else Ignore;
    if s == "menu_agent" {
      gateway.Send(TextMessage(from, AgentText));
    }
  }

  /** The FAQ rule: the stored answer, then the follow-up prompt. */
  method SendFaqAnswer(from: string, faqId: string, gateway: Gateway)
    requires faqId in FaqAnswers
    modifies gateway
    ensures gateway.sent == old(gateway.sent) + Perform(from, AnswerFaq(faqId))
  {
    gateway.Send(TextMessage(from, FaqAnswers[faqId]));
    gateway.Send(FaqFollowUp(from));
  }

  /** The order rule: a confirmation naming the product, found or not, then the follow-up prompt. */
  method SendOrderConfirmation(from: string, productId: string, gateway: Gateway)
    modifies gateway
    ensures gateway.sent == old(gateway.sent) + Perform(from, ConfirmOrder(productId))
  {
    var p := FindProduct(productId);
    gateway.Send(TextMessage(from, OrderConfirmationText(if p.Some? then Some(p.value.name) else None)));
    gateway.Send(OrderFollowUp(from));
  }
}
