/** The purchasable ball skins (src/constants/skins.ts). */
module SkinConstants {

  datatype SkinData = SkinData(name: string, id: int, price: int, url: string)

  /** The skin catalogue; a skin's id is its position and its price is 100 coins per id. */
  function Skins(): (s: seq<SkinData>)
    ensures |s| == 9
    ensures forall i :: 0 <= i < |s| ==> s[i].id == i && s[i].price == 100 * i
    ensures forall i, j :: 0 <= i < j < |s| ==> s[i].id != s[j].id && s[i].price < s[j].price
  {
    [ SkinData("flux", 0, 0, "assets/bouncing-ball/1x/1.png"),
      SkinData("burse", 1, 100, "assets/bouncing-ball/1x/2.png"),
      SkinData("chaos", 2, 200, "assets/bouncing-ball/1x/3.png"),
      SkinData("abstract", 3, 300, "assets/bouncing-ball/1x/4.png"),
      SkinData("glitch", 4, 400, "assets/bouncing-ball/1x/5.png"),
      SkinData("grain", 5, 500, "assets/bouncing-ball/1x/6.png"),
      SkinData("holographic", 6, 600, "assets/bouncing-ball/1x/7.png"),
      SkinData("scales", 7, 700, "assets/bouncing-ball/1x/8.png"),
      SkinData("surf", 8, 800, "assets/bouncing-ball/1x/9.png") ]
  }

  /** The skin every player starts with: the first of the catalogue, free. */
  function DefaultSkin(): (d: SkinData)
    ensures d == Skins()[0] && d.id == 0 && d.price == 0
  {
    Skins()[0]
  }
}
