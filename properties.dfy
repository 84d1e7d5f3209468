/**
 * What the dispatcher promises, stated over the reply function `Replies`
 * that `HandleMessage` is proved to follow.
 */
module DispatcherProperties {
  import opened Wrappers
  import opened Strings
  import opened Catalog
  import opened Messages
  import opened Dispatcher

  /** The ids matched exactly by the routing table. */
  const ExactIds: set<string> := {"menu_products", "cat_electronics", "cat_accessories", "menu_faq", "menu_agent"}

  /** Every text message with a body gets exactly the main menu, whatever the text says. */
  lemma TextGetsMainMenu(message: InboundMessage)
    requires message.kind.Text? && message.kind.body.Some?
    ensures |Replies(message)| == 1 && Replies(message)[0] == MainMenu(message.from)
    ensures Replies(message)[0].payload.ButtonPrompt?
    ensures OfferedIds(Replies(message)[0]) == ["menu_products", "menu_faq", "menu_agent"]
  {
  }

  /** An id falls through every rule exactly when no exact id, prefix or FAQ key matches it. */
  lemma IgnoredIff(id: string)
    ensures Route(id) == Ignore <==>
              id !in ExactIds && !StartsWith(id, "prod_") && id !in FaqAnswers && !StartsWith(id, "order_")
  {
  }

  /** Every routed action sends something; only falling through every rule is silent. */
  lemma PerformSilentIff(to: string, id: string)
    ensures Perform(to, Route(id)) == [] <==> Route(id) == Ignore
  {
  }

  /**
   * The bot stays silent exactly for a text message without a body (the
   * source raises), a message of another type, a structured reply without a
   * usable id, and an id no rule matches.
   */
  lemma SilentIff(message: InboundMessage)
    ensures Replies(message) == [] <==>
              || message.kind == Text(None)
              || message.kind.Unsupported?
              || (message.kind.Interactive? && RoutedId(message).None?)
              || (RoutedId(message).Some? && Route(RoutedId(message).value) == Ignore)
  {
    match message.kind
    case Interactive(b, l) =>
      if RoutedId(message).Some? {
        var id := RoutedId(message).value;
        PerformSilentIff(message.from, id);
      }
    case _ =>
  }

  /** The menu button leads to the two category buttons, each naming a category of the catalog. */
  lemma CategoriesRule(to: string)
    ensures Perform(to, Route("menu_products")) == [ProductCategories(to)]
    ensures OfferedIds(ProductCategories(to)) == ["cat_electronics", "cat_accessories"]
    ensures forall x :: x in OfferedIds(ProductCategories(to)) ==>
              Route(x).ShowProductList? && exists c :: c in Products && c.key == Route(x).category
  {
    FixedIdsRouted();
    assert Products[0].key == "electronics" && Products[1].key == "accessories";
    assert Products[0] in Products && Products[1] in Products;
  }

  /** Each category button leads to one list prompt whose single section lists that category. */
  lemma CategoryListRule(to: string)
    ensures Perform(to, Route("cat_electronics")) == [ProductList(to, "electronics")]
    ensures Perform(to, Route("cat_accessories")) == [ProductList(to, "accessories")]
    ensures ProductList(to, "electronics").payload.sections[0].rows == ProductRows(Products[0].items)
    ensures ProductList(to, "accessories").payload.sections[0].rows == ProductRows(Products[1].items)
  {
    assert "cat_electronics"[0] != "prod_"[0] && "cat_accessories"[0] != "prod_"[0];
  }

  /** An unknown category yields a list prompt with one section and no rows, not an error. */
  lemma UnknownCategoryListsNothing(to: string, category: string)
    requires forall c :: c in Products ==> c.key != category
    ensures ProductList(to, category).payload.sections[0].rows == []
  {
    assert Products[0] in Products && Products[1] in Products;
  }

  /**
   * Every row of a product list names a catalog product: tapping it finds
   * that product, whose name is the row's title and whose price and
   * description make the row's description.
   */
  lemma ProductListRowsFindTheirProduct(to: string, category: string, i: nat)
    requires i < |ProductList(to, category).payload.sections[0].rows|
    ensures var row := ProductList(to, category).payload.sections[0].rows[i];
            && Find(Products, row.id).Some?
            && row.title == Find(Products, row.id).value.name
            && row.description == Some(Find(Products, row.id).value.price + " | " + Find(Products, row.id).value.desc)
  {
    var items := ItemsOf(category);
    assert items == [] || items == Products[0].items || items == Products[1].items;
    assert AllProducts() == Products[0].items + Products[1].items;
    assert items[i] in AllProducts();
    FindRoundTrip(items[i]);
  }

  /**
   * `prod_` ids are routed before the FAQ and order rules: a known product
   * gets one card offering `order_<id>` then `menu_products`, an unknown one
   * gets one not-found text and no buttons.
   */
  lemma ProductRule(to: string, id: string)
    requires StartsWith(id, "prod_")
    ensures Route(id) == ShowProductDetail(id)
    ensures |Perform(to, Route(id))| == 1
    ensures Find(Products, id).Some? ==>
              Perform(to, Route(id))[0] == DetailCard(to, id, Find(Products, id).value)
              && OfferedIds(Perform(to, Route(id))[0]) == ["order_" + id, "menu_products"]
    ensures Find(Products, id).None? ==>
              Perform(to, Route(id))[0] == TextMessage(to, NotFoundText)
              && OfferedIds(Perform(to, Route(id))[0]) == []
  {
    assert id[0] == id[..5][0] == 'p';
  }

  /** The FAQ topics all reach the FAQ rule, since no FAQ id starts with `prod_`. */
  lemma FaqIdsReachFaqRule(id: string)
    requires id in FaqAnswers
    ensures Route(id) == AnswerFaq(id)
  {
    assert id[0] == 'f' by {
      assert id in {"faq_shipping", "faq_cost", "faq_return", "faq_payment"};
    }
    FirstCharRulesOutPrefix(id, "prod_");
    assert id !in ExactIds;
  }

  /** An FAQ id gets its stored answer, then the prompt offering `menu_faq` and `menu_products`. */
  lemma FaqRule(to: string, id: string)
    requires id in FaqAnswers
    ensures Perform(to, Route(id)) == [TextMessage(to, FaqAnswers[id]), FaqFollowUp(to)]
    ensures OfferedIds(Perform(to, Route(id))[1]) == ["menu_faq", "menu_products"]
  {
    FaqIdsReachFaqRule(id);
  }

  /** The FAQ list offers exactly the topics that have an answer. */
  lemma FaqListMatchesAnswers(to: string)
    ensures forall x :: x in OfferedIds(FaqList(to)) <==> x in FaqAnswers
  {
  }

  /** No id with the `order_` prefix is caught by an earlier rule. */
  lemma OrderIdsReachOrderRule(id: string)
    requires StartsWith(id, "order_")
    ensures Route(id) == ConfirmOrder(id[|"order_"|..])
  {
    assert id[..6] == "order_";
    assert !StartsWith(id, "prod_") by {
      assert id[0] == 'o';
    }
    assert id !in ExactIds;
    assert id !in FaqAnswers by {
      assert forall k :: k in FaqAnswers ==> k[0] == 'f';
    }
    ReplaceFirstStripsPrefix(id, "order_");
  }

  /**
   * An `order_` id looks up the product named by the rest of the id and
   * always sends two messages, found or not: the confirmation text, then the
   * prompt offering `menu_products` and `menu_agent`.
   */
  lemma OrderRule(to: string, id: string)
    requires StartsWith(id, "order_")
    ensures var productId := id[|"order_"|..];
            var p := Find(Products, productId);
            Perform(to, Route(id)) ==
              [TextMessage(to, OrderConfirmationText(if p.Some? then Some(p.value.name) else None)), OrderFollowUp(to)]
    ensures OfferedIds(Perform(to, Route(id))[1]) == ["menu_products", "menu_agent"]
  {
    OrderIdsReachOrderRule(id);
  }

  /** Ordering from a product card confirms that very product, by name. */
  lemma OrderFromCardNamesProduct(to: string, p: Product)
    requires p in AllProducts()
    ensures Perform(to, Route("order_" + p.id))[0] == TextMessage(to, OrderConfirmationText(Some(p.name)))
    ensures Contains(Perform(to, Route("order_" + p.id))[0].payload.text, p.name)
  {
    var id := "order_" + p.id;
    assert StartsWith(id, "order_");
    assert id[|"order_"|..] == p.id;
    OrderRule(to, id);
    FindRoundTrip(p);
  }

  /** The agent button gets the hand-off text and nothing else. */
  lemma AgentRule(to: string)
    ensures Perform(to, Route("menu_agent")) == [TextMessage(to, AgentText)]
  {
    assert "menu_agent"[0] != "prod_"[0] && "menu_agent"[0] != "order_"[0];
  }

  /** Every id a product list offers is a `prod_` id. */
  lemma ProductListIdsArePrefixed(to: string, category: string)
    ensures forall x :: x in OfferedIds(ProductList(to, category)) ==> StartsWith(x, "prod_")
  {
    var items := ItemsOf(category);
    var rows := ProductRows(items);
    assert items == [] || items == Products[0].items || items == Products[1].items;
    CatalogIdsArePrefixed();
    assert AllProducts() == Products[0].items + Products[1].items;
    forall x | x in OfferedIds(ProductList(to, category)) ensures StartsWith(x, "prod_") {
      assert x in RowIds(rows);
      var i :| 0 <= i < |rows| && RowIds(rows)[i] == x;
      assert x == items[i].id && items[i] in AllProducts();
    }
  }

  /** Tapping any id the message offers reaches some rule. */
  ghost predicate OffersRoutedIds(o: Outbound) {
    forall x :: x in OfferedIds(o) ==> Route(x) != Ignore
  }

  /** The fixed ids of the menus and prompts are all matched exactly. */
  lemma FixedIdsRouted()
    ensures Route("menu_products") == ShowCategories
    ensures Route("menu_faq") == ShowFaqList
    ensures Route("menu_agent") == HandOffToAgent
    ensures Route("cat_electronics") == ShowProductList("electronics")
    ensures Route("cat_accessories") == ShowProductList("accessories")
  {
    assert "menu_faq"[0] != "prod_"[0] && "menu_agent"[0] != "prod_"[0] && "menu_agent"[0] != "order_"[0];
    assert "menu_faq" !in FaqAnswers && "menu_agent" !in FaqAnswers;
  }

  lemma ProductListOffersRoutedIds(to: string, category: string)
    ensures OffersRoutedIds(ProductList(to, category))
  {
    ProductListIdsArePrefixed(to, category);
    forall x | x in OfferedIds(ProductList(to, category)) ensures Route(x) != Ignore {
      IgnoredIff(x);
    }
  }

  lemma ProductDetailOffersRoutedIds(to: string, productId: string)
    ensures forall o :: o in ProductDetail(to, productId) ==> OffersRoutedIds(o)
  {
    var ms := ProductDetail(to, productId);
    if Find(Products, productId).Some? {
      var x := "order_" + productId;
      assert OfferedIds(ms[0]) == [x, "menu_products"];
      assert Route(x) != Ignore by {
        assert StartsWith(x, "order_");
        IgnoredIff(x);
      }
      assert Route("menu_products") == ShowCategories;
    } else {
      assert OfferedIds(ms[0]) == [];
    }
    assert ms == [ms[0]];
  }

  lemma FaqListOffersRoutedIds(to: string)
    ensures OffersRoutedIds(FaqList(to))
  {
    FaqListMatchesAnswers(to);
    forall x | x in OfferedIds(FaqList(to)) ensures Route(x) != Ignore {
      FaqIdsReachFaqRule(x);
    }
  }

  /** The replies to any action offer only ids that some rule matches. */
  lemma PerformClosed(to: string, action: Action)
    ensures forall o :: o in Perform(to, action) ==> OffersRoutedIds(o)
  {
    FixedIdsRouted();
    match action
    case ShowCategories =>
      assert OffersRoutedIds(ProductCategories(to));
    case ShowProductList(category) =>
      ProductListOffersRoutedIds(to, category);
    case ShowProductDetail(productId) =>
      ProductDetailOffersRoutedIds(to, productId);
    case ShowFaqList =>
      FaqListOffersRoutedIds(to);
    case AnswerFaq(faqId) =>
      assert OffersRoutedIds(FaqFollowUp(to));
    case ConfirmOrder(productId) =>
      assert OffersRoutedIds(OrderFollowUp(to));
    case HandOffToAgent =>
    case Ignore =>
  }

  /** The button prompts an action sends have between one and three buttons. */
  lemma PerformWithinButtonLimit(to: string, action: Action)
    ensures forall o :: o in Perform(to, action) && o.payload.ButtonPrompt? ==>
              1 <= |o.payload.buttons| <= 3
  {
    forall o | o in Perform(to, action) && o.payload.ButtonPrompt?
      ensures 1 <= |o.payload.buttons| <= 3
    {
      assert |OfferedIds(o)| == |o.payload.buttons|;
    }
  }

  /**
   * Routing closure: every id the bot puts in a button or a list row is
   * matched by some rule when the user taps it.
   */
  lemma RoutingClosure(message: InboundMessage)
    ensures forall o, x :: o in Replies(message) && x in OfferedIds(o) ==> Route(x) != Ignore
  {
    var r := Replies(message);
    if message.kind.Text? {
      if message.kind.body.Some? {
        assert r == [MainMenu(message.from)];
        FixedIdsRouted();
        assert OffersRoutedIds(MainMenu(message.from));
      } else {
        assert r == [];
      }
    } else if RoutedId(message).Some? {
      assert r == Perform(message.from, Route(RoutedId(message).value));
      PerformClosed(message.from, Route(RoutedId(message).value));
    } else {
      assert r == [];
    }
    assert forall o :: o in r ==> OffersRoutedIds(o);
  }

  /** Every button prompt the bot sends has between one and three buttons, the platform's limit. */
  lemma ButtonPromptsWithinLimit(message: InboundMessage)
    ensures forall o :: o in Replies(message) && o.payload.ButtonPrompt? ==>
              1 <= |o.payload.buttons| <= 3
  {
    match message.kind
    case Interactive(b, l) =>
      if RoutedId(message).Some? {
        var id := RoutedId(message).value;
        PerformWithinButtonLimit(message.from, Route(id));
      }
    case Text(body) =>
      assert |OfferedIds(MainMenu(message.from))| == 3;
    case Unsupported(_) =>
  }
}
