/**
 * The server's in-memory entity store: two maps keyed by integer ids, each
 * with its own counter that starts at 1 and is post-incremented on every
 * insertion. The upgrades map is kept as a map plus the sequence of its keys
 * in insertion order, which is the order in which the store iterates it.
 */
module Storage {
  import opened Schema

  datatype StoreError = PlayerNotFound | UpgradeNotFound {
    /** The message of the error the store throws. */
    function Message(): string {
      match this
      case PlayerNotFound => "Player not found"
      case UpgradeNotFound => "Upgrade not found"
    }
  }

  datatype Result<T> = Ok(value: T) | Err(error: StoreError)

  /** The record a caller hands to addUpgrade; an absent or null level is `None`. */
  datatype InsertUpgrade = InsertUpgrade(playerId: int, kind: string, level: Option<int>)

  /** The upgrades stored under `keys`, in the order of `keys`. */
  function InOrder(m: map<int, Upgrade>, keys: seq<int>): (r: seq<Upgrade>)
    requires forall i :: 0 <= i < |keys| ==> keys[i] in m
    ensures |r| == |keys|
  {
    if keys == [] then [] else InOrder(m, keys[..|keys| - 1]) + [m[keys[|keys| - 1]]]
  }

  lemma {:induction false} InOrderAt(m: map<int, Upgrade>, keys: seq<int>, i: int)
    requires forall i :: 0 <= i < |keys| ==> keys[i] in m
    requires 0 <= i < |keys|
    ensures InOrder(m, keys)[i] == m[keys[i]]
  {
    if i < |keys| - 1 {
      InOrderAt(m, keys[..|keys| - 1], i);
    }
  }

  lemma InOrderSnoc(m: map<int, Upgrade>, keys: seq<int>, k: int)
    requires forall i :: 0 <= i < |keys| ==> keys[i] in m
    requires k in m
    ensures InOrder(m, keys + [k]) == InOrder(m, keys) + [m[k]]
  {
    assert (keys + [k])[..|keys|] == keys;
  }

  /** Listing depends only on the entries listed. */
  lemma {:induction false} InOrderFrame(m: map<int, Upgrade>, m': map<int, Upgrade>, keys: seq<int>)
    requires forall i :: 0 <= i < |keys| ==> keys[i] in m && keys[i] in m' && m'[keys[i]] == m[keys[i]]
    ensures InOrder(m', keys) == InOrder(m, keys)
  {
    if keys != [] {
      InOrderFrame(m, m', keys[..|keys| - 1]);
    }
  }

  /** `Array.prototype.filter` with the predicate `u.playerId === playerId`. */
  function OfPlayer(us: seq<Upgrade>, playerId: int): (r: seq<Upgrade>)
    ensures |r| <= |us|
    ensures forall i :: 0 <= i < |r| ==> r[i].playerId == playerId
  {
    if us == [] then []
    else
      var last := us[|us| - 1];
      OfPlayer(us[..|us| - 1], playerId) + (if last.playerId == playerId then [last] else [])
  }

  /** The filter keeps exactly the elements that belong to the player. */
  lemma {:induction false} OfPlayerMembers(us: seq<Upgrade>, playerId: int)
    ensures forall u :: u in OfPlayer(us, playerId) <==> u in us && u.playerId == playerId
  {
    if us != [] {
      var init := us[..|us| - 1];
      OfPlayerMembers(init, playerId);
      assert us == init + [us[|us| - 1]];
    }
  }

  lemma OfPlayerSnoc(us: seq<Upgrade>, u: Upgrade, playerId: int)
    ensures OfPlayer(us + [u], playerId) == OfPlayer(us, playerId) + (if u.playerId == playerId then [u] else [])
  {
    assert (us + [u])[..|us|] == us;
  }

  /** The filter keeps the order of its input: it distributes over concatenation. */
  lemma {:induction false} OfPlayerAppend(a: seq<Upgrade>, b: seq<Upgrade>, playerId: int)
    ensures OfPlayer(a + b, playerId) == OfPlayer(a, playerId) + OfPlayer(b, playerId)
  {
    if b != [] {
      var init := b[..|b| - 1];
      assert (a + b)[..|a + b| - 1] == a + init;
      OfPlayerAppend(a, init, playerId);
    } else {
      assert a + b == a;
    }
  }

  /**
   * `Array.from(m.values()).filter(u => u.playerId === playerId)`, where
   * `keys` is the iteration order of `m`.
   */
  method FilterValues(m: map<int, Upgrade>, keys: seq<int>, playerId: int) returns (r: seq<Upgrade>)
    requires forall i :: 0 <= i < |keys| ==> keys[i] in m
    ensures r == OfPlayer(InOrder(m, keys), playerId)
  {
    r := [];
    var i := 0;
    while i < |keys|
      invariant 0 <= i <= |keys|
      invariant r == OfPlayer(InOrder(m, keys[..i]), playerId)
    {
      var u := m[keys[i]];
      assert keys[..i + 1] == keys[..i] + [keys[i]];
      InOrderSnoc(m, keys[..i], keys[i]);
      OfPlayerSnoc(InOrder(m, keys[..i]), u, playerId);
      if u.playerId == playerId {
        r := r + [u];
      }
      i := i + 1;
    }
    assert keys[..i] == keys;
  }

  class MemStorage {
    var players: map<int, Player>
    var upgrades: map<int, Upgrade>
    /** The keys of `upgrades` in the order they were first set. */
    var upgradeOrder: seq<int>
    var currentPlayerId: int
    var currentUpgradeId: int

    /**
     * Every stored id is below its counter, and `upgradeOrder` lists the
     * keys of `upgrades` once each.
     */
    ghost predicate Valid()
      reads this
    {
      && 1 <= currentPlayerId
      && 1 <= currentUpgradeId
      && (forall id :: id in players ==> 1 <= id < currentPlayerId)
      && (forall id :: id in upgrades ==> 1 <= id < currentUpgradeId)
      && (forall i :: 0 <= i < |upgradeOrder| ==> upgradeOrder[i] in upgrades)
      && (forall id :: id in upgrades ==> id in upgradeOrder)
      && (forall i, j :: 0 <= i < j < |upgradeOrder| ==> upgradeOrder[i] != upgradeOrder[j])
    }

    /** The stored upgrades in iteration order (`this.upgrades.values()`). */
    function Upgrades(): seq<Upgrade>
      reads this
      requires Valid()
    {
      InOrder(upgrades, upgradeOrder)
    }

    constructor ()
      ensures Valid()
      ensures players == map[] && upgrades == map[] && upgradeOrder == []
      ensures currentPlayerId == 1 && currentUpgradeId == 1
    {
      players := map[];
      upgrades := map[];
      upgradeOrder := [];
      currentPlayerId := 1;
      currentUpgradeId := 1;
    }

    /** Looks a player up; an absent id gives `None`, never an error. */
    function GetPlayer(id: int): (r: Option<Player>)
      reads this
      ensures r.Some? <==> id in players
      ensures r.Some? ==> r.value == players[id]
    {
      if id in players then Some(players[id]) else None
    }

    /**
     * Stores a new player under the next id. The defaults come after the
     * caller's fields in the spread, so the caller can set only the username.
     * No other player's username is consulted.
     */
    method CreatePlayer(insert: PlayerPatch, now: int) returns (p: Player)
      requires Valid()
      requires insert.username.Some?
      modifies this`players, this`currentPlayerId
      ensures Valid()
      ensures p.id == old(currentPlayerId) && p.id !in old(players)
      ensures currentPlayerId == old(currentPlayerId) + 1
      ensures p.username == insert.username.value
      ensures p.coins == 0 && p.totalClicks == 0 && p.energy == 100
      ensures p.lastEnergyRefill == now && p.clickPower == 1 && p.autoClickPower == 0
      ensures players == old(players)[p.id := p]
      ensures upgrades == old(upgrades) && upgradeOrder == old(upgradeOrder)
      ensures currentUpgradeId == old(currentUpgradeId)
    {
      var id := currentPlayerId;
      currentPlayerId := currentPlayerId + 1;
      p := Player(id, insert.username.value, 0, 0, 100, now, 1, 0);
      players := players[id := p];
    }

    /**
     * Shallow-merges `data` over the stored player. An absent id is the
     * "Player not found" error and leaves the store as it was.
     */
    method UpdatePlayer(id: int, data: PlayerPatch) returns (r: Result<Player>)
      requires Valid()
      modifies this`players
      ensures Valid()
      ensures id !in old(players) ==> r == Err(PlayerNotFound) && players == old(players)
      ensures id in old(players) ==>
        && r == Ok(MergePlayer(old(players)[id], data))
        && players == old(players)[id := r.value]
      ensures players.Keys == old(players.Keys)
      ensures upgrades == old(upgrades) && upgradeOrder == old(upgradeOrder)
      ensures currentPlayerId == old(currentPlayerId) && currentUpgradeId == old(currentUpgradeId)
    {
      var player := GetPlayer(id);
      if player.None? {
        return Err(PlayerNotFound);
      }
      var updated := MergePlayer(player.value, data);
      players := players[id := updated];
      r := Ok(updated);
    }

    /** The stored upgrades of one player, in insertion order; nothing changes. */
    method GetUpgrades(playerId: int) returns (r: seq<Upgrade>)
      requires Valid()
      ensures r == OfPlayer(Upgrades(), playerId)
      ensures forall u :: u in r ==> u in Upgrades() && u.playerId == playerId
      ensures forall id :: id in upgrades && upgrades[id].playerId == playerId ==> upgrades[id] in r
    {
      r := FilterValues(upgrades, upgradeOrder, playerId);
      UpgradesOfPlayerListed(playerId);
    }

    /**
     * Filtering the iteration order by player keeps exactly the stored
     * upgrades of that player.
     */
    lemma UpgradesOfPlayerListed(playerId: int)
      requires Valid()
      ensures forall u :: u in OfPlayer(Upgrades(), playerId) ==> u in Upgrades() && u.playerId == playerId
      ensures forall id :: id in upgrades && upgrades[id].playerId == playerId ==>
                upgrades[id] in OfPlayer(Upgrades(), playerId)
    {
      var us := Upgrades();
      OfPlayerMembers(us, playerId);
      forall id | id in upgrades ensures upgrades[id] in us {
        var i :| 0 <= i < |upgradeOrder| && upgradeOrder[i] == id;
        InOrderAt(upgrades, upgradeOrder, i);
        assert us[i] == upgrades[id];
      }
    }

    /**
     * Stores a new upgrade under the next id, at the end of the iteration
     * order; the level defaults to 1.
     */
    method AddUpgrade(insert: InsertUpgrade) returns (u: Upgrade)
      requires Valid()
      modifies this`upgrades, this`upgradeOrder, this`currentUpgradeId
      ensures Valid()
      ensures u.id == old(currentUpgradeId) && u.id !in old(upgrades)
      ensures currentUpgradeId == old(currentUpgradeId) + 1
      ensures u.playerId == insert.playerId && u.kind == insert.kind
      ensures insert.level.None? ==> u.level == 1
      ensures insert.level.Some? ==> u.level == insert.level.value
      ensures upgrades == old(upgrades)[u.id := u]
      ensures upgradeOrder == old(upgradeOrder) + [u.id]
      ensures Upgrades() == old(Upgrades()) + [u]
      ensures players == old(players) && currentPlayerId == old(currentPlayerId)
    {
      var id := currentUpgradeId;
      currentUpgradeId := currentUpgradeId + 1;
      u := Upgrade(id, insert.playerId, insert.kind, insert.level.GetOr(1));
      assert id !in upgradeOrder;
      upgrades := upgrades[id := u];
      upgradeOrder := upgradeOrder + [id];
      InOrderFrame(old(upgrades), upgrades, old(upgradeOrder));
      InOrderSnoc(upgrades, old(upgradeOrder), id);
    }

    /**
     * Shallow-merges `data` over the stored upgrade, which keeps its place in
     * the iteration order. An absent id is the "Upgrade not found" error.
     */
    method UpdateUpgrade(id: int, data: UpgradePatch) returns (r: Result<Upgrade>)
      requires Valid()
      modifies this`upgrades
      ensures Valid()
      ensures id !in old(upgrades) ==> r == Err(UpgradeNotFound) && upgrades == old(upgrades)
      ensures id in old(upgrades) ==>
        && r == Ok(MergeUpgrade(old(upgrades)[id], data))
        && upgrades == old(upgrades)[id := r.value]
      ensures upgradeOrder == old(upgradeOrder)
      ensures players == old(players)
      ensures currentPlayerId == old(currentPlayerId) && currentUpgradeId == old(currentUpgradeId)
    {
      if id !in upgrades {
        return Err(UpgradeNotFound);
      }
      var updated := MergeUpgrade(upgrades[id], data);
      upgrades := upgrades[id := updated];
      r := Ok(updated);
    }
  }

  /**
   * A fresh store: the first player gets id 1 and the defaults, the first
   * upgrade id 1 and level 1, and listing that player's upgrades gives
   * exactly that upgrade.
   */
  method FirstPlayerAndUpgrade(username: string, kind: string, now: int)
    returns (p: Player, u: Upgrade, listed: seq<Upgrade>)
    ensures p.id == 1 && p.username == username
    ensures p.coins == 0 && p.energy == 100 && p.totalClicks == 0
    ensures u == Upgrade(1, 1, kind, 1)
    ensures listed == [u]
  {
    var store := new MemStorage();
    var insert := EmptyPlayerPatch.(username := Some(username));
    p := store.CreatePlayer(insert, now);
    u := store.AddUpgrade(InsertUpgrade(p.id, kind, None));
    listed := store.GetUpgrades(1);
    assert store.Upgrades() == [u];
  }

  /**
   * The store does not enforce unique usernames: two creations with the same
   * username both succeed, under two different ids.
   */
  method SameUsernameTwice(username: string, now: int) returns (a: Player, b: Player, stored: map<int, Player>)
    ensures a.username == username && b.username == username
    ensures a.id != b.id
    ensures stored == map[a.id := a, b.id := b]
  {
    var store := new MemStorage();
    var insert := EmptyPlayerPatch.(username := Some(username));
    a := store.CreatePlayer(insert, now);
    b := store.CreatePlayer(insert, now);
    stored := store.players;
  }
}
