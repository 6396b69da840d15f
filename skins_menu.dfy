/**
 * The skin shop's purchase and equip rule and its save helpers
 * (src/scenes/menu-scenes/Skins.ts). Every helper reloads the stored record
 * through Player.loadPlayer, changes one field and writes it back.
 */
module SkinsMenu {
  import opened Wrappers
  import opened PlayerData
  import opened SkinConstants
  import opened Storage
  import opened Players

  /** The catalogue lookup `SKINS[skinId]` finds the skin with that id, for every id. */
  lemma LookupById(skinId: nat)
    requires skinId < |Skins()|
    ensures Skins()[skinId].id == skinId
    ensures exists i :: 0 <= i < |Skins()| && Skins()[i].id == skinId
    ensures forall i :: 0 <= i < |Skins()| && Skins()[i].id == skinId ==> i == skinId
  {
  }

  class SkinsMenu {
    var currentSkin: int
    var ownedSkins: seq<int>
    /** The number shown by the coin label. */
    var coinText: int
    const storage: LocalStorage

    /** create(): the shop starts from the stored record with the defaults spread under it. */
    constructor (storage: LocalStorage)
      ensures this.storage == storage
      ensures coinText == LoadPlayer(storage.player).coins
      ensures ownedSkins == LoadPlayer(storage.player).ownedSkins
      ensures currentSkin == LoadPlayer(storage.player).equippedSkin
    {
      var playerData := LoadPlayer(storage.player);
      this.storage := storage;
      coinText := playerData.coins;
      ownedSkins := playerData.ownedSkins;
      currentSkin := playerData.equippedSkin;
    }

    method SavePlayerCoins(coins: int)
      modifies storage`player, this`coinText
      ensures storage.player == Some(Fields(LoadPlayer(old(storage.player)).(coins := coins)))
      ensures coinText == coins
    {
      var playerData := LoadPlayer(storage.player);
      storage.player := Some(Fields(playerData.(coins := coins)));
      coinText := coins;
    }

    method SavePlayerOwnedSkins(skins: seq<int>)
      modifies storage`player, this`ownedSkins
      ensures storage.player == Some(Fields(LoadPlayer(old(storage.player)).(ownedSkins := skins)))
      ensures ownedSkins == skins
    {
      var playerData := LoadPlayer(storage.player);
      storage.player := Some(Fields(playerData.(ownedSkins := skins)));
      ownedSkins := skins;
    }

    function LoadPlayerCoins(): (coins: int)
      reads this, storage
      ensures coins == LoadPlayer(storage.player).coins
    {
      LoadPlayer(storage.player).coins
    }

    method SavePlayerSkin(skin: int)
      modifies storage`player
      ensures storage.player == Some(Fields(LoadPlayer(old(storage.player)).(equippedSkin := skin)))
    {
      var playerData := LoadPlayer(storage.player);
      storage.player := Some(Fields(playerData.(equippedSkin := skin)));
    }

    /**
     * The `child.click` handler for the label of skin `skinId`. The equipped
     * skin ignores clicks; an unowned one is bought if the stored coins cover
     * its price and ignored otherwise; an owned or just bought skin is equipped.
     */
    method Click(skinId: nat)
      requires skinId < |Skins()|
      modifies storage`player, this`coinText, this`ownedSkins, this`currentSkin
      ensures var before := LoadPlayer(old(storage.player));
        var price := Skins()[skinId].price;
        if skinId == old(currentSkin) || (skinId !in old(ownedSkins) && before.coins < price) then
          && storage.player == old(storage.player)
          && currentSkin == old(currentSkin) && ownedSkins == old(ownedSkins) && coinText == old(coinText)
        else if skinId in old(ownedSkins) then
          && LoadPlayer(storage.player) == before.(equippedSkin := skinId)
          && currentSkin == skinId && ownedSkins == old(ownedSkins) && coinText == old(coinText)
        else
          && LoadPlayer(storage.player) ==
               before.(coins := before.coins - price, ownedSkins := old(ownedSkins) + [skinId], equippedSkin := skinId)
          && currentSkin == skinId && ownedSkins == old(ownedSkins) + [skinId] && coinText == before.coins - price
      ensures var before, after := LoadPlayer(old(storage.player)), LoadPlayer(storage.player);
        && after.coins <= before.coins
        && (before.coins >= 0 ==> after.coins >= 0)
        && (after.coins < before.coins ==> after.ownedSkins == old(ownedSkins) + [skinId] && skinId !in old(ownedSkins))
    {
      if skinId == currentSkin {
        return;
      }
      if skinId !in ownedSkins {
        var cost := Skins()[skinId].price;
        var coins := LoadPlayerCoins();
        if coins < cost {
          return;
        }
        SavePlayerCoins(coins - cost);
        LoadSaved(LoadPlayer(old(storage.player)).(coins := coins - cost));
        SavePlayerOwnedSkins(ownedSkins + [skinId]);
        ghost var afterCoins := LoadPlayer(old(storage.player)).(coins := coins - cost);
        LoadSaved(afterCoins.(ownedSkins := old(ownedSkins) + [skinId]));
      }
      currentSkin := skinId;
      ghost var beforeSkin := LoadPlayer(storage.player);
      SavePlayerSkin(skinId);
      LoadSaved(beforeSkin.(equippedSkin := skinId));
    }
  }
}
