/**
 * The client's game state: the current player (absent until the server has
 * created one) and the time of the last accepted click. Three guarded
 * transitions change it: a click, the once-a-second energy regeneration
 * tick, and buying a shop item. A rejected transition changes nothing.
 *
 * The transitions are given once as functions on a `Session` value; the
 * `GameStore` class holds the same two fields and updates them in place
 * through methods whose contracts tie them to those functions.
 */
module GameState {
  import opened Schema

  /** Minimum time in milliseconds between two accepted clicks. */
  const ClickCooldown := 200
  const MaxEnergy := 100

  /** The price table the store consults when buying, keyed by item id. */
  const ShopPrices: map<string, int> := map[
    "hqd_cuvie" := 100,
    "hqd_cuvie_plus" := 150,
    "elf_bar_600" := 120,
    "elf_bar_1500" := 200,
    "salt_25" := 80,
    "salt_20" := 70,
    "classic_6" := 50,
    "classic_12" := 60,
    "cart_standard" := 30,
    "cart_mesh" := 40,
    "coil_regular" := 20,
    "coil_mesh" := 25]

  lemma PricesPositive()
    ensures forall id :: id in ShopPrices ==> ShopPrices[id] > 0
  {
  }

  datatype Session = Session(player: Option<Player>, lastClickTime: int)

  const InitialSession := Session(None, 0)

  /** Energy within [0, 100], and no negative balance or click count. */
  predicate InRange(s: Session) {
    s.player.Some? ==>
      && 0 <= s.player.value.energy <= MaxEnergy
      && s.player.value.coins >= 0
      && s.player.value.totalClicks >= 0
  }

  // ---------------------------------------------------------------------
  // Click

  predicate ClickAccepted(s: Session, now: int) {
    && now - s.lastClickTime >= ClickCooldown
    && s.player.Some?
    && s.player.value.energy > 0
  }

  /** A click at time `now`: earns a coin for a unit of energy, unless too fast or out of energy. */
  function AfterClick(s: Session, now: int): (r: Session)
    ensures r != s <==> ClickAccepted(s, now)
    ensures InRange(s) ==> InRange(r)
    ensures r.player.Some? == s.player.Some?
    ensures r.lastClickTime >= s.lastClickTime
  {
    if now - s.lastClickTime < ClickCooldown then s
    else if s.player.None? || s.player.value.energy <= 0 then s
    else
      var p := s.player.value;
      Session(Some(p.(coins := p.coins + 1, totalClicks := p.totalClicks + 1, energy := p.energy - 1)), now)
  }

  /** A second click within the cooldown of an accepted one has no effect. */
  lemma ClickWithinCooldownDropped(s: Session, t1: int, t2: int)
    requires ClickAccepted(s, t1)
    requires t2 - t1 < ClickCooldown
    ensures AfterClick(AfterClick(s, t1), t2) == AfterClick(s, t1)
  {
  }

  // ---------------------------------------------------------------------
  // Energy regeneration

  function Min(a: int, b: int): int {
    if a <= b then a else b
  }

  predicate TickRegenerates(s: Session) {
    s.player.Some? && s.player.value.energy < MaxEnergy
  }

  /** One regeneration tick: one unit of energy, never beyond 100; only energy changes. */
  function AfterTick(s: Session): (r: Session)
    ensures r != s <==> TickRegenerates(s)
    ensures InRange(s) ==> InRange(r)
    ensures r.lastClickTime == s.lastClickTime
    ensures r.player.Some? == s.player.Some?
    ensures r.player.Some? ==> r.player.value == s.player.value.(energy := r.player.value.energy)
    ensures TickRegenerates(s) ==> r.player.value.energy == s.player.value.energy + 1 <= MaxEnergy
  {
    if s.player.None? || s.player.value.energy >= MaxEnergy then s
    else
      var p := s.player.value;
      Session(Some(p.(energy := Min(MaxEnergy, p.energy + 1))), s.lastClickTime)
  }

  // ---------------------------------------------------------------------
  // Buying

  predicate BuyAccepted(s: Session, itemId: string) {
    && s.player.Some?
    && itemId in ShopPrices
    && s.player.value.coins >= ShopPrices[itemId]
  }

  /** Buying an item: its price leaves the balance when it is known and affordable; only coins change. */
  function AfterBuy(s: Session, itemId: string): (r: Session)
    ensures r != s <==> BuyAccepted(s, itemId)
    ensures r.player.Some? == s.player.Some?
    ensures BuyAccepted(s, itemId) ==> r.player.value.coins == s.player.value.coins - ShopPrices[itemId]
    ensures InRange(s) ==> InRange(r)
    ensures r.lastClickTime == s.lastClickTime
    ensures r.player.Some? ==> r.player.value == s.player.value.(coins := r.player.value.coins)
  {
    PricesPositive();
    if s.player.None? then s
    else if itemId !in ShopPrices then s
    else if s.player.value.coins < ShopPrices[itemId] then s
    else
      var p := s.player.value;
      Session(Some(p.(coins := p.coins - ShopPrices[itemId])), s.lastClickTime)
  }

  // ---------------------------------------------------------------------
  // Runs of events

  datatype Event = ClickAt(now: int) | RegenTick | Buy(itemId: string)

  function Step(s: Session, e: Event): Session {
    match e
    case ClickAt(now) => AfterClick(s, now)
    case RegenTick => AfterTick(s)
    case Buy(itemId) => AfterBuy(s, itemId)
  }

  function Run(s: Session, events: seq<Event>): Session
    decreases |events|
  {
    if events == [] then s else Run(Step(s, events[0]), events[1..])
  }

  /** Whatever happens, energy stays in [0, 100] and coins and clicks stay non-negative. */
  lemma {:induction false} RunKeepsInRange(s: Session, events: seq<Event>)
    requires InRange(s)
    ensures InRange(Run(s, events))
    decreases |events|
  {
    if events != [] {
      RunKeepsInRange(Step(s, events[0]), events[1..]);
    }
  }

  /**
   * No event removes the player or changes who it is; the click count and
   * the time of the last accepted click never go down.
   */
  lemma {:induction false} RunKeepsIdentity(s: Session, events: seq<Event>)
    requires s.player.Some?
    ensures var r := Run(s, events);
      && r.player.Some?
      && r.player.value.id == s.player.value.id
      && r.player.value.username == s.player.value.username
      && r.player.value.lastEnergyRefill == s.player.value.lastEnergyRefill
      && r.player.value.clickPower == s.player.value.clickPower
      && r.player.value.autoClickPower == s.player.value.autoClickPower
      && r.player.value.totalClicks >= s.player.value.totalClicks
      && r.lastClickTime >= s.lastClickTime
    decreases |events|
  {
    if events != [] {
      RunKeepsIdentity(Step(s, events[0]), events[1..]);
    }
  }

  function Clicks(times: seq<int>): (events: seq<Event>)
    ensures |events| == |times|
  {
    if times == [] then [] else [ClickAt(times[0])] + Clicks(times[1..])
  }

  /** Each click comes at least the cooldown after the one before, starting from `last`. */
  predicate Spaced(last: int, times: seq<int>)
    decreases |times|
  {
    times == [] || (times[0] - last >= ClickCooldown && Spaced(times[0], times[1..]))
  }

  /**
   * N clicks spaced by the cooldown, with energy for all of them, are all
   * accepted: coins and clicks go up by exactly N, energy down by N, and
   * nothing else about the player changes.
   */
  lemma {:induction false} SpacedClicksAllCount(s: Session, times: seq<int>)
    requires s.player.Some? && s.player.value.energy >= |times|
    requires Spaced(s.lastClickTime, times)
    ensures var r := Run(s, Clicks(times)); var p := s.player.value; var n := |times|;
      && r.player == Some(p.(coins := p.coins + n, totalClicks := p.totalClicks + n, energy := p.energy - n))
      && r.lastClickTime == if times == [] then s.lastClickTime else times[|times| - 1]
    decreases |times|
  {
    if times != [] {
      var p := s.player.value;
      var s' := AfterClick(s, times[0]);
      assert s' == Session(Some(p.(coins := p.coins + 1, totalClicks := p.totalClicks + 1, energy := p.energy - 1)), times[0]);
      var events := Clicks(times);
      assert events[0] == ClickAt(times[0]) && events[1..] == Clicks(times[1..]);
      assert Run(s, events) == Run(s', Clicks(times[1..]));
      SpacedClicksAllCount(s', times[1..]);
    }
  }

  function Ticks(n: nat): (events: seq<Event>)
    ensures |events| == n
  {
    if n == 0 then [] else [RegenTick] + Ticks(n - 1)
  }

  /** From any energy in [0, 100], enough ticks refill it to exactly 100 and change nothing else. */
  lemma {:induction false} TicksRefillEnergy(s: Session, n: nat)
    requires s.player.Some? && 0 <= s.player.value.energy <= MaxEnergy
    requires n >= MaxEnergy - s.player.value.energy
    ensures Run(s, Ticks(n)) == Session(Some(s.player.value.(energy := MaxEnergy)), s.lastClickTime)
    decreases n
  {
    if n > 0 {
      assert Ticks(n)[1..] == Ticks(n - 1);
      TicksRefillEnergy(AfterTick(s), n - 1);
    }
  }

  // ---------------------------------------------------------------------
  // The store object

  class GameStore {
    var player: Option<Player>
    var lastClickTime: int

    function Snapshot(): Session
      reads this
    {
      Session(player, lastClickTime)
    }

    constructor ()
      ensures Snapshot() == InitialSession
    {
      player := None;
      lastClickTime := 0;
    }

    /** Stores the player the server returned on creation. */
    method ReceivePlayer(p: Player)
      modifies this
      ensures player == Some(p) && lastClickTime == old(lastClickTime)
    {
      player := Some(p);
    }

    method Click(now: int)
      modifies this
      ensures Snapshot() == AfterClick(old(Snapshot()), now)
      ensures !ClickAccepted(old(Snapshot()), now) ==> player == old(player) && lastClickTime == old(lastClickTime)
      ensures ClickAccepted(old(Snapshot()), now) ==>
        && lastClickTime == now
        && player.Some?
        && player.value == old(player.value).(coins := old(player.value.coins) + 1,
                                               totalClicks := old(player.value.totalClicks) + 1,
                                               energy := old(player.value.energy) - 1)
    {
      if now - lastClickTime < ClickCooldown {
        return;
      }
      if player.None? || player.value.energy <= 0 {
        return;
      }
      var p := player.value;
      player := Some(p.(coins := p.coins + 1, totalClicks := p.totalClicks + 1, energy := p.energy - 1));
      lastClickTime := now;
    }

    /** The body of the energy-regeneration interval. */
    method Tick()
      modifies this
      ensures Snapshot() == AfterTick(old(Snapshot()))
      ensures lastClickTime == old(lastClickTime)
      ensures !TickRegenerates(old(Snapshot())) ==> player == old(player)
      ensures TickRegenerates(old(Snapshot())) ==>
        player == Some(old(player.value).(energy := Min(MaxEnergy, old(player.value.energy) + 1)))
    {
      if player.None? || player.value.energy >= MaxEnergy {
        return;
      }
      var p := player.value;
      player := Some(p.(energy := Min(MaxEnergy, p.energy + 1)));
    }

    method BuyItem(itemId: string)
      modifies this
      ensures Snapshot() == AfterBuy(old(Snapshot()), itemId)
      ensures lastClickTime == old(lastClickTime)
      ensures !BuyAccepted(old(Snapshot()), itemId) ==> player == old(player)
      ensures BuyAccepted(old(Snapshot()), itemId) ==>
        player == Some(old(player.value).(coins := old(player.value.coins) - ShopPrices[itemId]))
    {
      if player.None? {
        return;
      }
      if itemId !in ShopPrices {
        return;
      }
      var price := ShopPrices[itemId];
      if player.value.coins < price {
        return;
      }
      var p := player.value;
      player := Some(p.(coins := p.coins - price));
    }
  }

  // ---------------------------------------------------------------------
  // Looking up an item id on the price-table object itself

  /**
   * Keys every object literal inherits from `Object.prototype`. Indexing the
   * price-table object with one of them yields a truthy member that has no
   * `price`.
   */
  const InheritedObjectKeys: set<string> := {
    "constructor", "hasOwnProperty", "isPrototypeOf", "propertyIsEnumerable",
    "toLocaleString", "toString", "valueOf", "__proto__",
    "__defineGetter__", "__defineSetter__", "__lookupGetter__", "__lookupSetter__"}

  datatype PriceLookup = OwnItem(price: int) | InheritedMember | NoItem

  /** `SHOP_ITEMS[itemId]` on the object literal, prototype chain included. */
  function LookupAsWritten(itemId: string): (r: PriceLookup)
    ensures r.OwnItem? <==> itemId in ShopPrices
    ensures r.OwnItem? ==> r.price == ShopPrices[itemId]
    ensures r.InheritedMember? <==> itemId in InheritedObjectKeys
  {
    if itemId in ShopPrices then OwnItem(ShopPrices[itemId])
    else if itemId in InheritedObjectKeys then InheritedMember
    else NoItem
  }

  /** A JavaScript number as far as the balance is concerned. */
  datatype CoinValue = Number(n: int) | NotANumber

  /**
   * The balance after buying as written: an inherited member passes the
   * `!item` test, `coins < undefined` is false, and `coins - undefined` is NaN.
   */
  function CoinsAfterBuyAsWritten(coins: int, itemId: string): (r: CoinValue)
    ensures r.NotANumber? <==> itemId in InheritedObjectKeys && itemId !in ShopPrices
    ensures r.Number? && r.n != coins ==> itemId in ShopPrices && r.n == coins - ShopPrices[itemId] >= 0
    ensures r.Number? ==> r.n <= coins
  {
    match LookupAsWritten(itemId)
    case NoItem => Number(coins)
    case InheritedMember => NotANumber
    case OwnItem(price) => if coins < price then Number(coins) else Number(coins - price)
  }

  /** Buying "toString" as written turns any balance into NaN. */
  lemma InheritedKeyCorruptsCoins(coins: int)
    ensures CoinsAfterBuyAsWritten(coins, "toString") == NotANumber
  {
  }

  /**
   * Away from the inherited keys the code as written and AfterBuy agree; on
   * those keys AfterBuy, which consults only the table's own entries,
   * changes nothing.
   */
  lemma AfterBuyCorrectsInheritedKeys(s: Session, itemId: string)
    requires s.player.Some?
    ensures itemId !in InheritedObjectKeys ==>
      CoinsAfterBuyAsWritten(s.player.value.coins, itemId) == Number(AfterBuy(s, itemId).player.value.coins)
    ensures itemId in InheritedObjectKeys ==> AfterBuy(s, itemId) == s
  {
  }
}
