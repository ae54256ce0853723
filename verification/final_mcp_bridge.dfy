/**
 * The stand-alone bridge script: the same forwarding of tool calls to the HTTP server,
 * with a fixed server URL, no status check, one catch-all error text, and renderers for
 * only the search and the nutrition tools (every other tool's data is shown as JSON).
 */
module FinalMcpBridge {
  import opened Wrappers
  import opened Fields
  import opened Dicts
  import opened Text
  import opened BridgeViews

  const HttpServerUrl: string := "http://localhost:8080"

  // ---------------------------------------------------------------- search_foods

  const NoFoodsText: string := "🔍 No foods found. Try different search terms!"
  const BrandPrefix: string := "   Brand: "
  const TypePrefix: string := "   Type: "

  function SearchText(foods: Field<seq<FoodView>>): string {
    if Truthy(foods) then Unlines(SearchHeader(|foods.value|) + FoodBlocks(foods.value, BrandPrefix, TypePrefix))
    else NoFoodsText
  }

  method FormatSearch(foods: Field<seq<FoodView>>) returns (text: string)
    ensures text == SearchText(foods)
  {
    if !(foods.Present? && foods.value != []) {
      return NoFoodsText;
    }
    var fs := foods.value;
    var found := "🍎 Found " + NatToString(|fs|) + " foods:";
    text := found + "\n\n";
    UnlinesBlank(found);
    text := AppendFoodBlocks(text, fs, BrandPrefix, TypePrefix);
    UnlinesAppend(SearchHeader(|fs|), FoodBlocks(fs, BrandPrefix, TypePrefix));
  }

  /**
   * No foods (missing, null or empty) gives the fixed message. Otherwise the foods are
   * numbered 1..n in input order, a brand line appears for exactly the foods with a
   * truthy brand owner, and each food has one type line.
   */
  lemma SearchRendering(foods: Field<seq<FoodView>>)
    ensures !Truthy(foods) ==> SearchText(foods) == NoFoodsText
    ensures Truthy(foods) ==>
      var fs := foods.value;
      var ls := SearchHeader(|fs|) + FoodBlocks(fs, BrandPrefix, TypePrefix);
      && SearchText(foods) == Unlines(ls)
      && |Numbered(ls)| == |fs|
      && (forall k :: 0 <= k < |fs| ==> Numbered(ls)[k] == FoodHeading(k + 1, fs[k]))
      && |Prefixed(ls, BrandPrefix)| == |Branded(fs)|
      && |Prefixed(ls, TypePrefix)| == |fs|
  {
    if Truthy(foods) {
      SearchListingLines(foods.value, BrandPrefix, TypePrefix);
    }
  }

  // ---------------------------------------------------------------- get_food_nutrition

  const MacroTitle: string := "**Macronutrients (per 100g):**"
  const VitaminTitle: string := "**Vitamins:**"
  const MineralTitle: string := "**Minerals:**"

  /** The food's name, then a blank line. */
  function NutritionHeader(info: FoodInfoView): seq<string> {
    ["🥘 **" + ShowStr(info.description.GetOr("Unknown Food")) + "**", ""]
  }

  /** The mineral section, unlike the other two, is not followed by a blank line. */
  function NutritionLines(info: FoodInfoView, n: NutritionView): seq<string> {
    NutritionHeader(info)
    + Section(MacroTitle, n.macronutrients, true)
    + Section(VitaminTitle, n.vitamins, true)
    + Section(MineralTitle, n.minerals, false)
  }

  method FormatNutrition(info: FoodInfoView, n: NutritionView) returns (text: string)
    ensures text == Unlines(NutritionLines(info, n))
  {
    var name := "🥘 **" + ShowStr(info.description.GetOr("Unknown Food")) + "**";
    text := name + "\n\n";
    UnlinesBlank(name);
    text := AppendSection(text, MacroTitle, n.macronutrients, true);
    text := AppendSection(text, VitaminTitle, n.vitamins, true);
    text := AppendSection(text, MineralTitle, n.minerals, false);
    UnlinesSplit4(NutritionHeader(info), Section(MacroTitle, n.macronutrients, true),
      Section(VitaminTitle, n.vitamins, true), Section(MineralTitle, n.minerals, false));
  }

  /** The header holds no title and no bullet. */
  lemma HeaderNotPrefixed(info: FoodInfoView, p: string)
    requires p != [] && p[0] != '🥘'
    ensures Prefixed(NutritionHeader(info), p) == []
  {
    var h := NutritionHeader(info);
    assert h[0][0] == '🥘';
    FirstCharDiffers(h[0], p);
    PrefixedNone(h, p);
  }

  /**
   * Each of the three sections is present exactly when its map is non-empty, and the
   * report has one bullet per entry of the three maps.
   */
  lemma NutritionSections(info: FoodInfoView, n: NutritionView)
    ensures var ls := NutritionLines(info, n);
      && Prefixed(ls, MacroTitle) == (if Truthy(n.macronutrients) then [MacroTitle] else [])
      && Prefixed(ls, VitaminTitle) == (if Truthy(n.vitamins) then [VitaminTitle] else [])
      && Prefixed(ls, MineralTitle) == (if Truthy(n.minerals) then [MineralTitle] else [])
      && |Prefixed(ls, "• ")| == |Items(n.macronutrients)| + |Items(n.vitamins)| + |Items(n.minerals)|
  {
    // The titles share their "**" and part at the third or fourth character.
    DiffersAt(VitaminTitle, MacroTitle, 2);
    DiffersAt(MineralTitle, MacroTitle, 3);
    DiffersAt(MacroTitle, VitaminTitle, 2);
    DiffersAt(MineralTitle, VitaminTitle, 2);
    DiffersAt(MacroTitle, MineralTitle, 3);
    DiffersAt(VitaminTitle, MineralTitle, 2);
    PrefixedPrefix(MacroTitle, "");
    PrefixedPrefix(VitaminTitle, "");
    PrefixedPrefix(MineralTitle, "");
    assert MacroTitle + "" == MacroTitle && VitaminTitle + "" == VitaminTitle && MineralTitle + "" == MineralTitle;
    HeaderNotPrefixed(info, MacroTitle);
    HeaderNotPrefixed(info, VitaminTitle);
    HeaderNotPrefixed(info, MineralTitle);
    HeaderNotPrefixed(info, "• ");
    SectionsTitle(NutritionHeader(info), MacroTitle, n.macronutrients, VitaminTitle, n.vitamins, MineralTitle, n.minerals, false, MacroTitle);
    SectionsTitle(NutritionHeader(info), MacroTitle, n.macronutrients, VitaminTitle, n.vitamins, MineralTitle, n.minerals, false, VitaminTitle);
    SectionsTitle(NutritionHeader(info), MacroTitle, n.macronutrients, VitaminTitle, n.vitamins, MineralTitle, n.minerals, false, MineralTitle);
    SectionsBullets(NutritionHeader(info), MacroTitle, n.macronutrients, VitaminTitle, n.vitamins, MineralTitle, n.minerals, false);
  }

  /** The last line of four parts is the last line of the last non-empty part. */
  lemma LastLine(h: seq<string>, a: seq<string>, b: seq<string>, c: seq<string>)
    requires h != []
    ensures var ls := h + a + b + c;
      ls[|ls| - 1] == if c != [] then c[|c| - 1] else if b != [] then b[|b| - 1] else if a != [] then a[|a| - 1] else h[|h| - 1]
  {
  }

  /** A shown section ends with its blank line, or else with its last bullet. */
  lemma SectionLast(title: string, f: Field<Dict<string, NutrientView>>, blank: bool)
    ensures Section(title, f, blank) != [] <==> Truthy(f)
    ensures Truthy(f) ==>
      var s := Section(title, f, blank);
      var e := f.value[|f.value| - 1];
      s[|s| - 1] == if blank then "" else Bullet(e.0, e.1.amount, e.1.unit)
  {
    if Truthy(f) {
      NutrientBulletsShape(f.value);
    }
  }

  /**
   * The report ends with a blank line exactly when there is no mineral section; with
   * minerals shown it ends with the last mineral's bullet.
   */
  lemma NutritionEnding(info: FoodInfoView, n: NutritionView)
    ensures var ls := NutritionLines(info, n);
      && ls != []
      && (ls[|ls| - 1] == "" <==> !Truthy(n.minerals))
      && (Truthy(n.minerals) ==>
            var e := n.minerals.value[|n.minerals.value| - 1];
            ls[|ls| - 1] == Bullet(e.0, e.1.amount, e.1.unit))
  {
    var h := NutritionHeader(info);
    var x, y, z := Section(MacroTitle, n.macronutrients, true), Section(VitaminTitle, n.vitamins, true),
      Section(MineralTitle, n.minerals, false);
    LastLine(h, x, y, z);
    SectionLast(MacroTitle, n.macronutrients, true);
    SectionLast(VitaminTitle, n.vitamins, true);
    SectionLast(MineralTitle, n.minerals, false);
    if Truthy(n.minerals) {
      var e := n.minerals.value[|n.minerals.value| - 1];
      BulletIsBullet(e.0, e.1.amount, e.1.unit);
    }
  }

  // ---------------------------------------------------------------- dispatch

  /** The text `format_response` renders for a tool's `data`; `dumps` is the JSON serialiser of the fallback. */
  function ResponseText(tool: string, data: DataView, dumps: DataView -> string): (r: string)
    ensures tool != "search_foods" && tool != "get_food_nutrition" ==> r == dumps(data)
    ensures tool == "search_foods" && !Truthy(data.foods) ==> r == NoFoodsText
  {
    if tool == "search_foods" then SearchText(data.foods)
    else if tool == "get_food_nutrition" then
      Unlines(NutritionLines(data.foodInfo.GetOr(EmptyInfo), data.nutrition.GetOr(EmptyNutrition)))
    else dumps(data)
  }

  method FormatResponse(tool: string, data: DataView, dumps: DataView -> string) returns (text: string)
    ensures text == ResponseText(tool, data, dumps)
  {
    if tool == "search_foods" {
      text := FormatSearch(data.foods);
    } else if tool == "get_food_nutrition" {
      text := FormatNutrition(data.foodInfo.GetOr(EmptyInfo), data.nutrition.GetOr(EmptyNutrition));
    } else {
      text := dumps(data);
    }
  }

  /**
   * `handle_call_tool`: posts to `{HTTP_SERVER_URL}/tools/{name}`. The reply's status is
   * never checked; whatever goes wrong becomes "💥 Error: " and the exception's text.
   */
  method HandleCallTool(name: string, exchange: Exchange, dumps: DataView -> string) returns (text: string, url: string)
    ensures url == HttpServerUrl + "/tools/" + name
    ensures exchange.TimedOut? || exchange.TransportFailed? ==> text == "💥 Error: " + exchange.message
    ensures exchange.Replied? && exchange.body.Failure? ==> text == "💥 Error: " + exchange.body.error
    ensures exchange.Replied? && exchange.body.Success? ==>
      var reply := exchange.body.value;
      text == if reply.success == Present(true) then ResponseText(name, reply.data.GetOr(EmptyData), dumps)
              else "❌ Error: " + ShowStr(reply.error.GetOr("Unknown error"))
  {
    url := HttpServerUrl + "/tools/" + name;
    match exchange
    case TimedOut(m) =>
      text := "💥 Error: " + m;
    case TransportFailed(m) =>
      text := "💥 Error: " + m;
    case Replied(_, _, body) =>
      if body.Failure? {
        text := "💥 Error: " + body.error;
      } else if body.value.success == Present(true) {
        text := FormatResponse(name, body.value.data.GetOr(EmptyData), dumps);
      } else {
        text := "❌ Error: " + ShowStr(body.value.error.GetOr("Unknown error"));
      }
  }
}
