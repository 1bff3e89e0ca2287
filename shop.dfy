/**
 * The shop screen: a static catalog of sections, each holding categories of
 * items, and the purchase handler that checks the balance before it asks
 * the game state to buy.
 */
module Shop {
  import opened Schema
  import opened GameState

  datatype Item = Item(id: string, name: string, price: int, description: string)
  datatype Category = Category(name: string, items: seq<Item>)
  datatype Section = Section(key: string, name: string, categories: seq<Category>)

  const Catalog: seq<Section> := [
    Section("disposables", "Одноразки", [
      Category("HQD", [
        Item("hqd_cuvie", "HQD Cuvie", 100, "Компактная одноразка"),
        Item("hqd_cuvie_plus", "HQD Cuvie Plus", 150, "Увеличенный объем")]),
      Category("ELF BAR", [
        Item("elf_bar_600", "ELF BAR 600", 120, "Классическая модель"),
        Item("elf_bar_1500", "ELF BAR 1500", 200, "Увеличенная емкость")])]),
    Section("liquids", "Жидкость", [
      Category("Солевой никотин", [
        Item("salt_25", "Salt 25мг", 80, "Крепкая солевая жидкость"),
        Item("salt_20", "Salt 20мг", 70, "Средняя крепость")]),
      Category("Обычный никотин", [
        Item("classic_6", "Classic 6мг", 50, "Легкая крепость"),
        Item("classic_12", "Classic 12мг", 60, "Средняя крепость")])]),
    Section("accessories", "Аксессуары", [
      Category("Картриджи", [
        Item("cart_standard", "Стандартный картридж", 30, "Универсальный картридж"),
        Item("cart_mesh", "Mesh картридж", 40, "Улучшенный вкус")]),
      Category("Испарители", [
        Item("coil_regular", "Обычный испаритель", 20, "Базовая модель"),
        Item("coil_mesh", "Mesh испаритель", 25, "Улучшенная модель")])])]

  /** The items of a list of categories, in display order. */
  function CategoryItems(cs: seq<Category>): seq<Item> {
    if cs == [] then [] else cs[0].items + CategoryItems(cs[1..])
  }

  /** Every item of the catalog, in display order. */
  function AllItems(ss: seq<Section>): seq<Item> {
    if ss == [] then [] else CategoryItems(ss[0].categories) + AllItems(ss[1..])
  }

  /** An item is listed exactly when some category of some section lists it. */
  lemma {:induction false} AllItemsListed(ss: seq<Section>, item: Item)
    ensures item in AllItems(ss) <==>
      exists i, j :: 0 <= i < |ss| && 0 <= j < |ss[i].categories| && item in ss[i].categories[j].items
  {
    if ss != [] {
      AllItemsListed(ss[1..], item);
      CategoryItemsListed(ss[0].categories, item);
      if item in AllItems(ss[1..]) {
        var i, j :| 0 <= i < |ss[1..]| && 0 <= j < |ss[1..][i].categories| && item in ss[1..][i].categories[j].items;
        assert 0 <= i + 1 < |ss| && item in ss[i + 1].categories[j].items;
      }
      if exists i, j :: 0 <= i < |ss| && 0 <= j < |ss[i].categories| && item in ss[i].categories[j].items {
        var i, j :| 0 <= i < |ss| && 0 <= j < |ss[i].categories| && item in ss[i].categories[j].items;
        if i > 0 {
          assert ss[1..][i - 1] == ss[i];
        }
      }
    }
  }

  lemma {:induction false} CategoryItemsListed(cs: seq<Category>, item: Item)
    ensures item in CategoryItems(cs) <==> exists j :: 0 <= j < |cs| && item in cs[j].items
  {
    if cs != [] {
      CategoryItemsListed(cs[1..], item);
      if item in CategoryItems(cs[1..]) {
        var j :| 0 <= j < |cs[1..]| && item in cs[1..][j].items;
        assert item in cs[j + 1].items;
      }
      if exists j :: 0 <= j < |cs| && item in cs[j].items {
        var j :| 0 <= j < |cs| && item in cs[j].items;
        if j > 0 {
          assert cs[1..][j - 1] == cs[j];
        }
      }
    }
  }

  /** The catalog's twelve items in display order. */
  lemma CatalogItems()
    ensures AllItems(Catalog) == [
      Catalog[0].categories[0].items[0], Catalog[0].categories[0].items[1],
      Catalog[0].categories[1].items[0], Catalog[0].categories[1].items[1],
      Catalog[1].categories[0].items[0], Catalog[1].categories[0].items[1],
      Catalog[1].categories[1].items[0], Catalog[1].categories[1].items[1],
      Catalog[2].categories[0].items[0], Catalog[2].categories[0].items[1],
      Catalog[2].categories[1].items[0], Catalog[2].categories[1].items[1]]
  {
    assert Catalog[1..][1..][1..] == [];
    assert Catalog[0].categories[1..][1..] == [];
    assert Catalog[1].categories[1..][1..] == [];
    assert Catalog[2].categories[1..][1..] == [];
  }

  /** No two catalog items share an id (ids are list keys and price-table keys). */
  lemma CatalogIdsDistinct()
    ensures var items := AllItems(Catalog);
      forall i, j :: 0 <= i < j < |items| ==> items[i].id != items[j].id
  {
    CatalogItems();
  }

  /** The game state's price table holds `item`'s id at `item`'s price. */
  predicate PricedAsInTable(item: Item) {
    item.id in ShopPrices && ShopPrices[item.id] == item.price
  }

  /** Every catalog item is in the game state's price table, at its displayed price. */
  lemma CatalogPricesInTable()
    ensures forall i, j, k ::
              0 <= i < |Catalog| && 0 <= j < |Catalog[i].categories| && 0 <= k < |Catalog[i].categories[j].items|
              ==> PricedAsInTable(Catalog[i].categories[j].items[k])
  {
    assert PricedAsInTable(Catalog[0].categories[0].items[0]);
    assert PricedAsInTable(Catalog[0].categories[0].items[1]);
    assert PricedAsInTable(Catalog[0].categories[1].items[0]);
    assert PricedAsInTable(Catalog[0].categories[1].items[1]);
    assert PricedAsInTable(Catalog[1].categories[0].items[0]);
    assert PricedAsInTable(Catalog[1].categories[0].items[1]);
    assert PricedAsInTable(Catalog[1].categories[1].items[0]);
    assert PricedAsInTable(Catalog[1].categories[1].items[1]);
    assert PricedAsInTable(Catalog[2].categories[0].items[0]);
    assert PricedAsInTable(Catalog[2].categories[0].items[1]);
    assert PricedAsInTable(Catalog[2].categories[1].items[0]);
    assert PricedAsInTable(Catalog[2].categories[1].items[1]);
  }

  /** Every id of the price table is sold in the catalog. */
  lemma TableIdsInCatalog()
    ensures forall id :: id in ShopPrices ==> exists item :: item in AllItems(Catalog) && item.id == id
  {
    CatalogItems();
    var items := AllItems(Catalog);
    forall id | id in ShopPrices ensures exists item :: item in items && item.id == id {
      var k :=
        if id == "hqd_cuvie" then 0 else if id == "hqd_cuvie_plus" then 1
        else if id == "elf_bar_600" then 2 else if id == "elf_bar_1500" then 3
        else if id == "salt_25" then 4 else if id == "salt_20" then 5
        else if id == "classic_6" then 6 else if id == "classic_12" then 7
        else if id == "cart_standard" then 8 else if id == "cart_mesh" then 9
        else if id == "coil_regular" then 10 else 11;
      assert items[k].id == id && items[k] in items;
    }
  }

  // ---------------------------------------------------------------------
  // Purchase handler

  datatype Decision = NotEnoughCoins(shortfall: int) | Delegate(itemId: string)

  /** The buy button of an item is disabled while the balance is below its price. */
  predicate BuyButtonDisabled(player: Player, item: Item) {
    player.coins < item.price
  }

  /**
   * The click handler of an item's buy button: with too few coins it reports
   * how many are missing, otherwise it hands the item id to the game state.
   */
  function HandleBuyItem(player: Player, item: Item): (d: Decision)
    ensures d.NotEnoughCoins? ==> d.shortfall > 0 && player.coins + d.shortfall == item.price
    ensures d.Delegate? ==> d.itemId == item.id && player.coins >= item.price
  {
    if player.coins < item.price then NotEnoughCoins(item.price - player.coins)
    else Delegate(item.id)
  }

  /** The button is disabled exactly when the handler would refuse. */
  lemma DisabledIffRefused(player: Player, item: Item)
    ensures BuyButtonDisabled(player, item) <==> HandleBuyItem(player, item).NotEnoughCoins?
  {
  }

  /**
   * For a catalog item the shop's check and the game state's check agree: a
   * refused purchase changes nothing, a delegated one is accepted and takes
   * exactly the displayed price.
   */
  lemma {:induction false} ShopAgreesWithGameState(s: Session, item: Item)
    requires s.player.Some?
    requires item in AllItems(Catalog)
    ensures HandleBuyItem(s.player.value, item).NotEnoughCoins? ==> AfterBuy(s, item.id) == s
    ensures HandleBuyItem(s.player.value, item).Delegate? ==>
      && BuyAccepted(s, item.id)
      && AfterBuy(s, item.id) ==
         Session(Some(s.player.value.(coins := s.player.value.coins - item.price)), s.lastClickTime)
  {
    AllItemsListed(Catalog, item);
    var i, j :| 0 <= i < |Catalog| && 0 <= j < |Catalog[i].categories| && item in Catalog[i].categories[j].items;
    var k :| 0 <= k < |Catalog[i].categories[j].items| && Catalog[i].categories[j].items[k] == item;
    CatalogPricesInTable();
    assert PricedAsInTable(item);
  }
}
