/**
 * The records the game server stores and the client keeps in its state:
 * players and upgrades, and the partial updates ("patches") that the store
 * shallow-merges over them with the object spread `{ ...old, ...data }`.
 *
 * A patch is a record of optional fields: a present field is a key the
 * caller sent, an absent one a key it left out.
 */
module Schema {

  datatype Option<T> = None | Some(value: T) {
    /** The value, or `default` when absent (the `??` operator). */
    function GetOr(default: T): T {
      match this
      case Some(v) => v
      case None => default
    }
  }

  /** A player's progression record. Timestamps are opaque integers. */
  datatype Player = Player(
    id: int,
    username: string,
    coins: int,
    totalClicks: int,
    energy: int,
    lastEnergyRefill: int,
    clickPower: int,
    autoClickPower: int)

  /** A partial player: the keys of a request body or an insert record. */
  datatype PlayerPatch = PlayerPatch(
    id: Option<int>,
    username: Option<string>,
    coins: Option<int>,
    totalClicks: Option<int>,
    energy: Option<int>,
    lastEnergyRefill: Option<int>,
    clickPower: Option<int>,
    autoClickPower: Option<int>)

  /** A per-player upgrade; the source's `type` field is called `kind` here. */
  datatype Upgrade = Upgrade(id: int, playerId: int, kind: string, level: int)

  datatype UpgradePatch = UpgradePatch(
    id: Option<int>,
    playerId: Option<int>,
    kind: Option<string>,
    level: Option<int>)

  const EmptyPlayerPatch: PlayerPatch :=
    PlayerPatch(None, None, None, None, None, None, None, None)

  const EmptyUpgradePatch: UpgradePatch := UpgradePatch(None, None, None, None)

  // ---------------------------------------------------------------------
  // Players

  /** The keys of a player record. */
  datatype PlayerKey =
    Id | Username | Coins | TotalClicks | Energy | LastEnergyRefill | ClickPower | AutoClickPower

  /** The patch `d` carries key `k`. */
  predicate SendsPlayerKey(d: PlayerPatch, k: PlayerKey) {
    match k
    case Id => d.id.Some?
    case Username => d.username.Some?
    case Coins => d.coins.Some?
    case TotalClicks => d.totalClicks.Some?
    case Energy => d.energy.Some?
    case LastEnergyRefill => d.lastEnergyRefill.Some?
    case ClickPower => d.clickPower.Some?
    case AutoClickPower => d.autoClickPower.Some?
  }

  /** The players `p` and `q` hold different values under key `k`. */
  predicate PlayerKeyDiffers(p: Player, q: Player, k: PlayerKey) {
    match k
    case Id => p.id != q.id
    case Username => p.username != q.username
    case Coins => p.coins != q.coins
    case TotalClicks => p.totalClicks != q.totalClicks
    case Energy => p.energy != q.energy
    case LastEnergyRefill => p.lastEnergyRefill != q.lastEnergyRefill
    case ClickPower => p.clickPower != q.clickPower
    case AutoClickPower => p.autoClickPower != q.autoClickPower
  }

  /** Going from `p` to `q` touches only keys that `d` carries. */
  predicate OnlySentPlayerKeysChange(p: Player, q: Player, d: PlayerPatch) {
    forall k :: PlayerKeyDiffers(p, q, k) ==> SendsPlayerKey(d, k)
  }

  /** `q` carries every value the patch `d` sends. */
  predicate SatisfiesPlayerPatch(q: Player, d: PlayerPatch) {
    && (d.id.Some? ==> q.id == d.id.value)
    && (d.username.Some? ==> q.username == d.username.value)
    && (d.coins.Some? ==> q.coins == d.coins.value)
    && (d.totalClicks.Some? ==> q.totalClicks == d.totalClicks.value)
    && (d.energy.Some? ==> q.energy == d.energy.value)
    && (d.lastEnergyRefill.Some? ==> q.lastEnergyRefill == d.lastEnergyRefill.value)
    && (d.clickPower.Some? ==> q.clickPower == d.clickPower.value)
    && (d.autoClickPower.Some? ==> q.autoClickPower == d.autoClickPower.value)
  }

  /**
   * `{ ...p, ...d }`: the keys `d` carries replace those of `p`, every
   * other key keeps its old value.
   */
  function MergePlayer(p: Player, d: PlayerPatch): (r: Player)
    ensures SatisfiesPlayerPatch(r, d)
    ensures OnlySentPlayerKeysChange(p, r, d)
  {
    Player(
      d.id.GetOr(p.id),
      d.username.GetOr(p.username),
      d.coins.GetOr(p.coins),
      d.totalClicks.GetOr(p.totalClicks),
      d.energy.GetOr(p.energy),
      d.lastEnergyRefill.GetOr(p.lastEnergyRefill),
      d.clickPower.GetOr(p.clickPower),
      d.autoClickPower.GetOr(p.autoClickPower))
  }

  /**
   * The two clauses of MergePlayer's contract determine the merge: any
   * record that carries the patch's values and differs from `p` only on
   * the patch's keys is the merge.
   */
  lemma MergePlayerUnique(p: Player, d: PlayerPatch, q: Player)
    requires SatisfiesPlayerPatch(q, d)
    requires OnlySentPlayerKeysChange(p, q, d)
    ensures q == MergePlayer(p, d)
  {
    var r := MergePlayer(p, d);
    assert q.id == r.id by { assert PlayerKeyDiffers(p, q, Id) ==> SendsPlayerKey(d, Id); }
    assert q.username == r.username by { assert PlayerKeyDiffers(p, q, Username) ==> SendsPlayerKey(d, Username); }
    assert q.coins == r.coins by { assert PlayerKeyDiffers(p, q, Coins) ==> SendsPlayerKey(d, Coins); }
    assert q.totalClicks == r.totalClicks by { assert PlayerKeyDiffers(p, q, TotalClicks) ==> SendsPlayerKey(d, TotalClicks); }
    assert q.energy == r.energy by { assert PlayerKeyDiffers(p, q, Energy) ==> SendsPlayerKey(d, Energy); }
    assert q.lastEnergyRefill == r.lastEnergyRefill by { assert PlayerKeyDiffers(p, q, LastEnergyRefill) ==> SendsPlayerKey(d, LastEnergyRefill); }
    assert q.clickPower == r.clickPower by { assert PlayerKeyDiffers(p, q, ClickPower) ==> SendsPlayerKey(d, ClickPower); }
    assert q.autoClickPower == r.autoClickPower by { assert PlayerKeyDiffers(p, q, AutoClickPower) ==> SendsPlayerKey(d, AutoClickPower); }
  }

  /** The patch that sends every key of `q`. */
  function FullPlayerPatch(q: Player): (d: PlayerPatch)
    ensures forall k :: SendsPlayerKey(d, k)
  {
    PlayerPatch(Some(q.id), Some(q.username), Some(q.coins), Some(q.totalClicks),
                Some(q.energy), Some(q.lastEnergyRefill), Some(q.clickPower), Some(q.autoClickPower))
  }

  /** Merging an empty body leaves the record as it was; a full body replaces it. */
  lemma MergePlayerExtremes(p: Player, q: Player)
    ensures MergePlayer(p, EmptyPlayerPatch) == p
    ensures MergePlayer(p, FullPlayerPatch(q)) == q
  {
  }

  /** `d` sent after `c`: the keys of `d` win, the rest come from `c`. */
  function ThenPlayerPatch(c: PlayerPatch, d: PlayerPatch): (e: PlayerPatch)
    ensures forall k :: SendsPlayerKey(e, k) <==> SendsPlayerKey(c, k) || SendsPlayerKey(d, k)
  {
    PlayerPatch(
      if d.id.Some? then d.id else c.id,
      if d.username.Some? then d.username else c.username,
      if d.coins.Some? then d.coins else c.coins,
      if d.totalClicks.Some? then d.totalClicks else c.totalClicks,
      if d.energy.Some? then d.energy else c.energy,
      if d.lastEnergyRefill.Some? then d.lastEnergyRefill else c.lastEnergyRefill,
      if d.clickPower.Some? then d.clickPower else c.clickPower,
      if d.autoClickPower.Some? then d.autoClickPower else c.autoClickPower)
  }

  /** Two successive merges are one merge of the combined patch; re-sending a patch changes nothing. */
  lemma MergePlayerCompose(p: Player, c: PlayerPatch, d: PlayerPatch)
    ensures MergePlayer(MergePlayer(p, c), d) == MergePlayer(p, ThenPlayerPatch(c, d))
    ensures MergePlayer(MergePlayer(p, d), d) == MergePlayer(p, d)
  {
  }

  // ---------------------------------------------------------------------
  // Upgrades

  datatype UpgradeKey = UpgradeId | PlayerId | Kind | Level

  predicate SendsUpgradeKey(d: UpgradePatch, k: UpgradeKey) {
    match k
    case UpgradeId => d.id.Some?
    case PlayerId => d.playerId.Some?
    case Kind => d.kind.Some?
    case Level => d.level.Some?
  }

  predicate UpgradeKeyDiffers(u: Upgrade, v: Upgrade, k: UpgradeKey) {
    match k
    case UpgradeId => u.id != v.id
    case PlayerId => u.playerId != v.playerId
    case Kind => u.kind != v.kind
    case Level => u.level != v.level
  }

  predicate OnlySentUpgradeKeysChange(u: Upgrade, v: Upgrade, d: UpgradePatch) {
    forall k :: UpgradeKeyDiffers(u, v, k) ==> SendsUpgradeKey(d, k)
  }

  predicate SatisfiesUpgradePatch(v: Upgrade, d: UpgradePatch) {
    && (d.id.Some? ==> v.id == d.id.value)
    && (d.playerId.Some? ==> v.playerId == d.playerId.value)
    && (d.kind.Some? ==> v.kind == d.kind.value)
    && (d.level.Some? ==> v.level == d.level.value)
  }

  /** `{ ...u, ...d }` for an upgrade. */
  function MergeUpgrade(u: Upgrade, d: UpgradePatch): (r: Upgrade)
    ensures SatisfiesUpgradePatch(r, d)
    ensures OnlySentUpgradeKeysChange(u, r, d)
  {
    Upgrade(
      d.id.GetOr(u.id),
      d.playerId.GetOr(u.playerId),
      d.kind.GetOr(u.kind),
      d.level.GetOr(u.level))
  }

  /** As for players, the contract of MergeUpgrade determines it. */
  lemma MergeUpgradeUnique(u: Upgrade, d: UpgradePatch, v: Upgrade)
    requires SatisfiesUpgradePatch(v, d)
    requires OnlySentUpgradeKeysChange(u, v, d)
    ensures v == MergeUpgrade(u, d)
  {
    assert UpgradeKeyDiffers(u, v, UpgradeId) ==> SendsUpgradeKey(d, UpgradeId);
    assert UpgradeKeyDiffers(u, v, PlayerId) ==> SendsUpgradeKey(d, PlayerId);
    assert UpgradeKeyDiffers(u, v, Kind) ==> SendsUpgradeKey(d, Kind);
    assert UpgradeKeyDiffers(u, v, Level) ==> SendsUpgradeKey(d, Level);
  }

  lemma MergeUpgradeEmpty(u: Upgrade)
    ensures MergeUpgrade(u, EmptyUpgradePatch) == u
  {
  }
}
