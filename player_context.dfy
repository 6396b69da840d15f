/**
 * The registry copy of the player record and its reducer
 * (src/classes/player/PlayerContext.ts).
 */
module PlayerContext {
  import opened Wrappers
  import opened PlayerData
  import opened Storage

  /** The action types; any other string is `Unknown`. */
  datatype ActionType =
    | Save
    | SetHighScore
    | SetCoins
    | SetEquippedSkin
    | SetOwnedSkins
    | SetSettings
    | Unknown(name: string)

  /** An action payload by its JavaScript kind. */
  datatype Payload =
    | Undefined
    | Null
    | Number(n: int)
    | NumberArray(items: seq<int>)
    | Object(props: Settings)

  datatype Action = Action(kind: ActionType, payload: Payload, saveImmediately: Option<bool>)

  /** isNotNullOrUndefined. */
  predicate IsNotNullOrUndefined(p: Payload)
  {
    p != Null && p != Undefined
  }

  /** `typeof payload === 'object'`, which arrays and null also satisfy. */
  predicate IsObject(p: Payload)
  {
    p.Null? || p.NumberArray? || p.Object?
  }

  /** The own enumerable properties of an object payload; an array's are its indices. */
  function Props(p: Payload): (m: Settings)
    requires p.NumberArray? || p.Object?
    ensures p.Object? ==> m == p.props
    ensures p.NumberArray? ==> forall k :: k in m <==> k.Index? && k.i < |p.items|
  {
    if p.Object? then p.props
    else map i | 0 <= i < |p.items| :: Index(i) := p.items[i] as real
  }

  /** `{ ...a, ...b }` on settings objects: b's keys win, a's other keys stay. */
  function Spread(a: Settings, b: Settings): (m: Settings)
    ensures m.Keys == a.Keys + b.Keys
    ensures forall k :: k in b ==> m[k] == b[k]
    ensures forall k :: k in a && k !in b ==> m[k] == a[k]
  {
    map k | k in a.Keys + b.Keys :: if k in b then b[k] else a[k]
  }

  /**
   * The record change of setPlayerData's switch, or the invalid payload it
   * rejects: the three numeric setters take a number and change only their
   * field, SET_OWNED_SKINS takes an array, SET_SETTINGS takes any non-null
   * object (arrays included), and SAVE or an unknown type changes nothing.
   */
  function Reduce(player: PlayerFields, action: Action): (r: Result<PlayerFields>)
    ensures var p := action.payload;
      && (action.kind in {SetHighScore, SetCoins, SetEquippedSkin} ==> (r.Ok? <==> p.Number?))
      && (action.kind == SetHighScore && r.Ok? ==> r.value == player.(highScore := Some(p.n)))
      && (action.kind == SetCoins && r.Ok? ==> r.value == player.(coins := Some(p.n)))
      && (action.kind == SetEquippedSkin && r.Ok? ==> r.value == player.(equippedSkin := Some(p.n)))
      && (action.kind == SetOwnedSkins ==> (r.Ok? <==> p.NumberArray?))
      && (action.kind == SetOwnedSkins && r.Ok? ==> r.value == player.(ownedSkins := Some(p.items)))
      && (action.kind == SetSettings ==> (r.Ok? <==> p.NumberArray? || p.Object?))
      && (action.kind == SetSettings && r.Ok? ==> r.value == player.(settings := r.value.settings) && r.value.settings.Some?)
      && (action.kind == Save || action.kind.Unknown? ==> r == Ok(player))
      && (r.Err? ==> r.error == InvalidPayload)
  {
    var p := action.payload;
    match action.kind
    case SetHighScore =>
      if !IsNotNullOrUndefined(p) || !p.Number? then Err(InvalidPayload)
      else Ok(player.(highScore := Some(p.n)))
    case SetCoins =>
      if !IsNotNullOrUndefined(p) || !p.Number? then Err(InvalidPayload)
      else Ok(player.(coins := Some(p.n)))
    case SetEquippedSkin =>
      if !IsNotNullOrUndefined(p) || !p.Number? then Err(InvalidPayload)
      else Ok(player.(equippedSkin := Some(p.n)))
    case SetOwnedSkins =>
      if !IsNotNullOrUndefined(p) || !p.NumberArray? then Err(InvalidPayload)
      else Ok(player.(ownedSkins := Some(p.items)))
    case SetSettings =>
      if !IsNotNullOrUndefined(p) || !IsObject(p) then Err(InvalidPayload)
      else Ok(player.(settings := Some(Spread(OptionOr(player.settings, map[]), Props(p)))))
    case Save => Ok(player)
    case Unknown(_) => Ok(player)
  }

  /**
   * Whether setPlayerData writes the record to localStorage: for SAVE, or
   * when the action asks to be saved immediately (by default it does not).
   */
  function Saves(action: Action): (b: bool)
    ensures b <==> action.kind == Save || action.saveImmediately == Some(true)
    ensures action.saveImmediately.None? ==> (b <==> action.kind == Save)
  {
    action.kind == Save || OptionOr(action.saveImmediately, false)
  }

  /** SET_SETTINGS keeps every settings key the payload does not name. */
  lemma SettingsMerge(player: PlayerFields, props: Settings, saveImmediately: Option<bool>)
    ensures var r := Reduce(player, Action(SetSettings, Object(props), saveImmediately));
      var before := OptionOr(player.settings, map[]);
      && r.Ok? && r.value == player.(settings := r.value.settings)
      && r.value.settings.Some?
      && (forall k :: k in props ==> k in r.value.settings.value && r.value.settings.value[k] == props[k])
      && (forall k :: k in before && k !in props ==> k in r.value.settings.value && r.value.settings.value[k] == before[k])
      && r.value.settings.value.Keys == before.Keys + props.Keys
  {
  }

  /** getPlayerData: the registry's record, or an error when there is none. */
  function GetPlayerData(registry: Registry): (r: Result<PlayerFields>)
    reads registry
    ensures r.Err? <==> registry.player.None?
    ensures r.Ok? ==> Some(r.value) == registry.player
    ensures r.Err? ==> r.error == PlayerDataNotFound
  {
    match registry.player
    case Some(p) => Ok(p)
    case None => Err(PlayerDataNotFound)
  }

  /**
   * setPlayerData. The reducer's record goes back into the registry, and to
   * localStorage when the action saves; a missing record or a rejected
   * payload changes neither.
   */
  method SetPlayerData(registry: Registry, storage: LocalStorage, action: Action) returns (r: Outcome)
    modifies registry`player, storage`player
    ensures old(registry.player).None? ==> r == Fail(PlayerDataNotFound)
    ensures old(registry.player).Some? && Reduce(old(registry.player).value, action).Err? ==> r == Fail(InvalidPayload)
    ensures r.Fail? ==> registry.player == old(registry.player) && storage.player == old(storage.player)
    ensures r.Pass? <==> old(registry.player).Some? && Reduce(old(registry.player).value, action).Ok?
    ensures r.Pass? ==>
      && registry.player == Some(Reduce(old(registry.player).value, action).value)
      && storage.player == (if Saves(action) then registry.player else old(storage.player))
  {
    var player := GetPlayerData(registry);
    if player.Err? {
      return Fail(player.error);
    }
    var save := OptionOr(action.saveImmediately, false);
    if action.kind == Save {
      save := true;
    }
    var updated := Reduce(player.value, action);
    if updated.Err? {
      return Fail(updated.error);
    }
    registry.player := Some(updated.value);
    if save {
      storage.player := registry.player;
    }
    r := Pass;
  }

  /**
   * loadPlayerDataFromLocalStorage: the stored record as it is, without the
   * defaults spread under it, or the default record when nothing is stored.
   */
  function LoadPlayerDataFromLocalStorage(stored: Option<PlayerFields>): (f: PlayerFields)
    ensures stored.Some? ==> f == stored.value
    ensures stored.None? ==> f == Fields(DefaultPlayerData())
  {
    OptionOr(stored, Fields(DefaultPlayerData()))
  }

  /** registerPlayerData: copy the stored record (or the defaults) into the registry. */
  method RegisterPlayerData(registry: Registry, storage: LocalStorage)
    modifies registry`player
    ensures registry.player == Some(LoadPlayerDataFromLocalStorage(storage.player))
  {
    registry.player := Some(LoadPlayerDataFromLocalStorage(storage.player));
  }
}
