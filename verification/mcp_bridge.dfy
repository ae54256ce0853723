/**
 * The stdio bridge that forwards each tool call to the HTTP server and renders the
 * server's reply as text: a search listing, a nutrition report, a comparison, or the
 * answer of the question helper. Every renderer is a loop of `result += ...` and is
 * proved equal to the text of a list of lines; the properties of a rendering are stated
 * over those lines.
 */
module McpBridge {
  import opened Wrappers
  import opened Fields
  import opened Dicts
  import opened Text
  import opened BridgeViews

  /** The server URL when none is given on the command line. */
  const DefaultServerUrl: string := "http://localhost:8080"

  const TimeoutText: string := "⏰ Request timed out. Please try again."

  /** What `enumerate` raises on a null `foods`. */
  const NotIterable: string := "'NoneType' object is not iterable"

  // ---------------------------------------------------------------- search_foods

  const NoFoodsText: string := "🔍 No foods found for your search. Try different keywords!"
  const SearchHint: string := "💡 Use `get_food_nutrition` with an ID to see detailed nutrition info!"
  const BrandPrefix: string := "   🏢 Brand: "
  const TypePrefix: string := "   📋 Type: "

  function SearchText(foods: Field<seq<FoodView>>): string {
    if Truthy(foods) then Unlines(SearchHeader(|foods.value|) + FoodBlocks(foods.value, BrandPrefix, TypePrefix)) + SearchHint
    else NoFoodsText
  }

  method FormatSearch(foods: Field<seq<FoodView>>) returns (text: string)
    ensures text == SearchText(foods)
  {
    if !(foods.Present? && foods.value != []) {
      return NoFoodsText;
    }
    var fs := foods.value;
    var found := "🍎 Found " + NatToString(|fs|) + " foods:";
    text := found + "\n\n";
    UnlinesBlank(found);
    text := AppendFoodBlocks(text, fs, BrandPrefix, TypePrefix);
    UnlinesAppend(SearchHeader(|fs|), FoodBlocks(fs, BrandPrefix, TypePrefix));
    text := text + SearchHint;
  }

  /**
   * No foods gives the fixed message. Otherwise the foods are numbered 1..n in input
   * order, a brand line appears for exactly the foods with a truthy brand owner, each
   * food has one type line, and the text ends with the hint.
   */
  lemma SearchRendering(foods: Field<seq<FoodView>>)
    ensures !Truthy(foods) ==> SearchText(foods) == NoFoodsText
    ensures Truthy(foods) ==>
      var fs := foods.value;
      var ls := SearchHeader(|fs|) + FoodBlocks(fs, BrandPrefix, TypePrefix);
      var t := SearchText(foods);
      && |Numbered(ls)| == |fs|
      && (forall k :: 0 <= k < |fs| ==> Numbered(ls)[k] == FoodHeading(k + 1, fs[k]))
      && |Prefixed(ls, BrandPrefix)| == |Branded(fs)|
      && |Prefixed(ls, TypePrefix)| == |fs|
      && |SearchHint| <= |t| && t[|t| - |SearchHint|..] == SearchHint
  {
    if Truthy(foods) {
      SearchListingLines(foods.value, BrandPrefix, TypePrefix);
    }
  }

  // ---------------------------------------------------------------- get_food_nutrition

  const MacroTitle: string := "⚡ **Macronutrients (per 100g):**"
  const VitaminTitle: string := "🌟 **Vitamins:**"
  const MineralTitle: string := "\U{26F0}\U{FE0F} **Minerals:**"

  /** The food's name and id, then a blank line. */
  function NutritionHeader(info: FoodInfoView): seq<string> {
    ["🥘 **" + ShowStr(info.description.GetOr("Unknown Food")) + "**", "📊 ID: " + ShowInt(info.fdcId.Get()), ""]
  }

  function NutritionLines(info: FoodInfoView, n: NutritionView): seq<string> {
    NutritionHeader(info)
    + Section(MacroTitle, n.macronutrients, true)
    + Section(VitaminTitle, n.vitamins, true)
    + Section(MineralTitle, n.minerals, true)
  }

  method FormatNutrition(info: FoodInfoView, n: NutritionView) returns (text: string)
    ensures text == Unlines(NutritionLines(info, n))
  {
    var name := "🥘 **" + ShowStr(info.description.GetOr("Unknown Food")) + "**";
    var id := "📊 ID: " + ShowInt(info.fdcId.Get());
    text := name + "\n";
    text := text + id + "\n\n";
    UnlinesPairBlank(name, id);
    text := AppendSection(text, MacroTitle, n.macronutrients, true);
    text := AppendSection(text, VitaminTitle, n.vitamins, true);
    text := AppendSection(text, MineralTitle, n.minerals, true);
    UnlinesSplit4(NutritionHeader(info), Section(MacroTitle, n.macronutrients, true),
      Section(VitaminTitle, n.vitamins, true), Section(MineralTitle, n.minerals, true));
  }

  /** A title line that starts with `c`, where the other lines of the report start otherwise. */
  lemma HeaderNotPrefixed(info: FoodInfoView, p: string)
    requires p != [] && p[0] != '🥘' && p[0] != '📊'
    ensures Prefixed(NutritionHeader(info), p) == []
  {
    var h := NutritionHeader(info);
    assert h[0][0] == '🥘' && h[1][0] == '📊';
    FirstCharDiffers(h[0], p);
    FirstCharDiffers(h[1], p);
    PrefixedNone(h, p);
  }

  /**
   * Each of the macro, vitamin and mineral sections is present exactly when its map is
   * non-empty, and the report has one bullet per entry of the three maps.
   */
  lemma NutritionSections(info: FoodInfoView, n: NutritionView)
    ensures var ls := NutritionLines(info, n);
      && Prefixed(ls, MacroTitle) == (if Truthy(n.macronutrients) then [MacroTitle] else [])
      && Prefixed(ls, VitaminTitle) == (if Truthy(n.vitamins) then [VitaminTitle] else [])
      && Prefixed(ls, MineralTitle) == (if Truthy(n.minerals) then [MineralTitle] else [])
      && |Prefixed(ls, "• ")| == |Items(n.macronutrients)| + |Items(n.vitamins)| + |Items(n.minerals)|
  {
    assert MacroTitle[0] == '⚡' && VitaminTitle[0] == '🌟' && MineralTitle[0] == '\U{26F0}';
    FirstCharDiffers(VitaminTitle, MacroTitle);
    FirstCharDiffers(MineralTitle, MacroTitle);
    FirstCharDiffers(MacroTitle, VitaminTitle);
    FirstCharDiffers(MineralTitle, VitaminTitle);
    FirstCharDiffers(MacroTitle, MineralTitle);
    FirstCharDiffers(VitaminTitle, MineralTitle);
    PrefixedPrefix(MacroTitle, "");
    PrefixedPrefix(VitaminTitle, "");
    PrefixedPrefix(MineralTitle, "");
    assert MacroTitle + "" == MacroTitle && VitaminTitle + "" == VitaminTitle && MineralTitle + "" == MineralTitle;
    HeaderNotPrefixed(info, MacroTitle);
    HeaderNotPrefixed(info, VitaminTitle);
    HeaderNotPrefixed(info, MineralTitle);
    HeaderNotPrefixed(info, "• ");
    SectionsTitle(NutritionHeader(info), MacroTitle, n.macronutrients, VitaminTitle, n.vitamins, MineralTitle, n.minerals, true, MacroTitle);
    SectionsTitle(NutritionHeader(info), MacroTitle, n.macronutrients, VitaminTitle, n.vitamins, MineralTitle, n.minerals, true, VitaminTitle);
    SectionsTitle(NutritionHeader(info), MacroTitle, n.macronutrients, VitaminTitle, n.vitamins, MineralTitle, n.minerals, true, MineralTitle);
    SectionsBullets(NutritionHeader(info), MacroTitle, n.macronutrients, VitaminTitle, n.vitamins, MineralTitle, n.minerals, true);
  }

  // ---------------------------------------------------------------- compare_foods

  const CompareTitle: string := "\U{2696}\U{FE0F} **Food Comparison (per 100g):**"
  const ComparedTitle: string := "📋 **Foods being compared:**"

  /** The mark every nutrient heading of a comparison starts with. */
  const RowMark: string := "🔍 **"

  /** `{i}. {description}`, the description defaulting to 'Unknown'. */
  function ComparedLine(i: nat, f: FoodView): string {
    NatToString(i) + ". " + ShowStr(f.description.GetOr("Unknown"))
  }

  function ComparedLines(fs: seq<FoodView>): seq<string> {
    if fs == [] then [] else ComparedLines(fs[..|fs| - 1]) + [ComparedLine(|fs|, fs[|fs| - 1])]
  }

  /** `• {food}: {amount}{unit}`, the food defaulting to 'Unknown'. */
  function ItemBullets(items: seq<ItemView>): seq<string> {
    if items == [] then []
    else
      var item := items[|items| - 1];
      ItemBullets(items[..|items| - 1]) + [Bullet(ShowStr(item.food.GetOr("Unknown")), item.amount, item.unit)]
  }

  function RowTitle(nutrient: string): string {
    RowMark + nutrient + ":**"
  }

  /** One titled block per nutrient, in the order of the comparison's keys. */
  function RowLines(rows: Dict<string, seq<ItemView>>): seq<string> {
    if rows == [] then []
    else
      var (nutrient, items) := rows[|rows| - 1];
      RowLines(rows[..|rows| - 1]) + Titled(RowTitle(nutrient), ItemBullets(items), true)
  }

  function CompareLines(fs: seq<FoodView>, rows: Dict<string, seq<ItemView>>): seq<string> {
    [CompareTitle, "", ComparedTitle] + ComparedLines(fs) + [""] + RowLines(rows)
  }

  /** How many cells the rows hold together. */
  function CellCount(rows: Dict<string, seq<ItemView>>): nat {
    if rows == [] then 0 else CellCount(rows[..|rows| - 1]) + |rows[|rows| - 1].1|
  }

  /** The nutrient names of the rows, in order. */
  function RowNames(rows: Dict<string, seq<ItemView>>): seq<string> {
    if rows == [] then [] else RowNames(rows[..|rows| - 1]) + [RowTitle(rows[|rows| - 1].0)]
  }

  lemma ComparedStep(text: string, fs: seq<FoodView>, i: nat)
    requires i < |fs|
    ensures text + Unlines(ComparedLines(fs[..i])) + ComparedLine(i + 1, fs[i]) + "\n" == text + Unlines(ComparedLines(fs[..i + 1]))
  {
    assert fs[..i + 1][..i] == fs[..i];
    UnlinesPushText(text, ComparedLines(fs[..i]), ComparedLine(i + 1, fs[i]));
  }

  method AppendCompared(text: string, fs: seq<FoodView>) returns (t: string)
    ensures t == text + Unlines(ComparedLines(fs))
  {
    t := text;
    var i := 0;
    while i < |fs|
      invariant 0 <= i <= |fs|
      invariant t == text + Unlines(ComparedLines(fs[..i]))
    {
      ComparedStep(text, fs, i);
      t := t + ComparedLine(i + 1, fs[i]) + "\n";
      i := i + 1;
    }
    assert fs[..i] == fs;
  }

  lemma ItemStep(text: string, items: seq<ItemView>, i: nat)
    requires i < |items|
    ensures text + Unlines(ItemBullets(items[..i])) + Bullet(ShowStr(items[i].food.GetOr("Unknown")), items[i].amount, items[i].unit) + "\n"
      == text + Unlines(ItemBullets(items[..i + 1]))
  {
    assert items[..i + 1][..i] == items[..i];
    UnlinesPushText(text, ItemBullets(items[..i]), Bullet(ShowStr(items[i].food.GetOr("Unknown")), items[i].amount, items[i].unit));
  }

  /** The block of one nutrient: its heading, one bullet per cell, and a blank line. */
  method AppendRowLines(text: string, nutrient: string, items: seq<ItemView>) returns (t: string)
    ensures t == text + Unlines(Titled(RowTitle(nutrient), ItemBullets(items), true))
  {
    var pre := text + RowTitle(nutrient) + "\n";
    t := pre;
    var i := 0;
    while i < |items|
      invariant 0 <= i <= |items|
      invariant t == pre + Unlines(ItemBullets(items[..i]))
    {
      ItemStep(pre, items, i);
      t := t + Bullet(ShowStr(items[i].food.GetOr("Unknown")), items[i].amount, items[i].unit) + "\n";
      i := i + 1;
    }
    assert items[..i] == items;
    t := t + "\n";
    TitledText(text, RowTitle(nutrient), ItemBullets(items), true);
  }

  lemma RowsStep(text: string, rows: Dict<string, seq<ItemView>>, i: nat)
    requires i < |rows|
    ensures text + Unlines(RowLines(rows[..i])) + Unlines(Titled(RowTitle(rows[i].0), ItemBullets(rows[i].1), true))
      == text + Unlines(RowLines(rows[..i + 1]))
  {
    assert rows[..i + 1][..i] == rows[..i];
    UnlinesAppendText(text, RowLines(rows[..i]), Titled(RowTitle(rows[i].0), ItemBullets(rows[i].1), true));
  }

  method AppendRows(text: string, rows: Dict<string, seq<ItemView>>) returns (t: string)
    ensures t == text + Unlines(RowLines(rows))
  {
    t := text;
    var i := 0;
    while i < |rows|
      invariant 0 <= i <= |rows|
      invariant t == text + Unlines(RowLines(rows[..i]))
    {
      RowsStep(text, rows, i);
      t := AppendRowLines(t, rows[i].0, rows[i].1);
      i := i + 1;
    }
    assert rows[..i] == rows;
  }

  method FormatCompare(fs: seq<FoodView>, rows: Dict<string, seq<ItemView>>) returns (text: string)
    ensures text == Unlines(CompareLines(fs, rows))
  {
    text := CompareTitle + "\n\n";
    text := text + ComparedTitle + "\n";
    UnlinesBlankBetween(CompareTitle, ComparedTitle);
    text := AppendCompared(text, fs);
    text := text + "\n";
    UnlinesEmptyLine();
    text := AppendRows(text, rows);
    UnlinesSplit4([CompareTitle, "", ComparedTitle], ComparedLines(fs), [""], RowLines(rows));
  }

  lemma ComparedLineDigit(i: nat, f: FoodView)
    ensures StartsWithDigit(ComparedLine(i, f))
  {
    var rest := ShowStr(f.description.GetOr("Unknown"));
    NumberLineStartsWithDigit(i, ". " + rest);
    assert NatToString(i) + ". " + rest == NatToString(i) + (". " + rest);
  }

  lemma {:induction false} ComparedLinesAt(fs: seq<FoodView>)
    ensures |ComparedLines(fs)| == |fs|
    ensures forall k :: 0 <= k < |fs| ==> ComparedLines(fs)[k] == ComparedLine(k + 1, fs[k])
    ensures forall k :: 0 <= k < |fs| ==> StartsWithDigit(ComparedLines(fs)[k])
  {
    if fs != [] {
      var p := fs[..|fs| - 1];
      var last := ComparedLine(|fs|, fs[|fs| - 1]);
      var ls := ComparedLines(fs);
      ComparedLinesAt(p);
      assert ls == ComparedLines(p) + [last];
      ComparedLineDigit(|fs|, fs[|fs| - 1]);
      forall k | 0 <= k < |fs|
        ensures ls[k] == ComparedLine(k + 1, fs[k]) && StartsWithDigit(ls[k])
      {
        if k < |p| {
          assert ls[k] == ComparedLines(p)[k];
          assert p[k] == fs[k];
        }
      }
    }
  }

  lemma {:induction false} ItemBulletsShape(items: seq<ItemView>)
    ensures |ItemBullets(items)| == |items|
    ensures forall k :: 0 <= k < |items| ==> StartsWith(ItemBullets(items)[k], "• ")
  {
    if items != [] {
      var item := items[|items| - 1];
      ItemBulletsShape(items[..|items| - 1]);
      BulletIsBullet(ShowStr(item.food.GetOr("Unknown")), item.amount, item.unit);
    }
  }

  lemma RowTitleShape(nutrient: string)
    ensures StartsWith(RowTitle(nutrient), RowMark)
    ensures RowTitle(nutrient) != [] && RowTitle(nutrient)[0] == '🔍'
  {
    assert RowTitle(nutrient) == RowMark + (nutrient + ":**");
    PrefixedPrefix(RowMark, nutrient + ":**");
  }

  /** The rows hold one heading per nutrient, in order, one bullet per cell, and no numbered line. */
  lemma {:induction false} RowLinesShape(rows: Dict<string, seq<ItemView>>)
    ensures Prefixed(RowLines(rows), RowMark) == RowNames(rows)
    ensures |Prefixed(RowLines(rows), "• ")| == CellCount(rows)
    ensures Numbered(RowLines(rows)) == []
  {
    if rows != [] {
      var (nutrient, items) := rows[|rows| - 1];
      var p := rows[..|rows| - 1];
      var block := Titled(RowTitle(nutrient), ItemBullets(items), true);
      assert RowLines(rows) == RowLines(p) + block;
      RowLinesShape(p);
      RowTitleShape(nutrient);
      ItemBulletsShape(items);
      TitledBullets(RowTitle(nutrient), ItemBullets(items), true);
      TitledPrefixed(RowTitle(nutrient), ItemBullets(items), true, RowMark);
      TitledNumbered(RowTitle(nutrient), ItemBullets(items), true);
      PrefixedAppend(RowLines(p), block, RowMark);
      PrefixedAppend(RowLines(p), block, "• ");
      NumberedAppend(RowLines(p), block);
    }
  }

  lemma {:induction false} RowNamesAt(rows: Dict<string, seq<ItemView>>)
    ensures |RowNames(rows)| == |rows|
    ensures forall k :: 0 <= k < |rows| ==> RowNames(rows)[k] == RowTitle(rows[k].0)
  {
    if rows != [] {
      var p := rows[..|rows| - 1];
      RowNamesAt(p);
      forall k | 0 <= k < |rows| ensures RowNames(rows)[k] == RowTitle(rows[k].0) {
        if k < |p| {
          assert RowNames(rows)[k] == RowNames(p)[k] && p[k] == rows[k];
        }
      }
    }
  }

  /** The fixed lines of a comparison: none numbered, none a nutrient heading, none a bullet. */
  lemma CompareFrame(p: string)
    requires p == RowMark || p == "• "
    ensures Numbered([CompareTitle, "", ComparedTitle]) == [] && Numbered([""]) == []
    ensures Prefixed([CompareTitle, "", ComparedTitle], p) == [] && Prefixed([""], p) == []
  {
    var h := [CompareTitle, "", ComparedTitle];
    assert h[0][0] == '\U{2696}' && h[2][0] == '📋' && p[0] in {'🔍', '•'};
    FirstCharDiffers(h[0], p);
    FirstCharDiffers(h[2], p);
    NumberedNone(h);
    NumberedNone([""]);
    PrefixedNone(h, p);
    PrefixedNone([""], p);
  }

  /** The numbered lines of a comparison are its food list, numbered 1..n in order. */
  lemma CompareNumbered(fs: seq<FoodView>, rows: Dict<string, seq<ItemView>>)
    ensures var ls := CompareLines(fs, rows);
      && |Numbered(ls)| == |fs|
      && (forall k :: 0 <= k < |fs| ==> Numbered(ls)[k] == ComparedLine(k + 1, fs[k]))
  {
    CompareFrame(RowMark);
    ComparedLinesAt(fs);
    NumberedAll(ComparedLines(fs));
    RowLinesShape(rows);
    FramedNumbered([CompareTitle, "", ComparedTitle], ComparedLines(fs), [""], RowLines(rows));
  }

  /** No food line of a comparison is a nutrient heading or a bullet. */
  lemma ComparedNotPrefixed(fs: seq<FoodView>, p: string)
    requires p == RowMark || p == "• "
    ensures Prefixed(ComparedLines(fs), p) == []
  {
    var cs := ComparedLines(fs);
    ComparedLinesAt(fs);
    assert p[0] in {'🔍', '•'};
    forall k | 0 <= k < |cs| ensures !StartsWith(cs[k], p) {
      DigitNotPrefixed(cs[k], p);
    }
    PrefixedNone(cs, p);
  }

  /** A comparison has one heading per nutrient key, in key order. */
  lemma CompareHeadings(fs: seq<FoodView>, rows: Dict<string, seq<ItemView>>)
    ensures var ls := CompareLines(fs, rows);
      && |Prefixed(ls, RowMark)| == |rows|
      && (forall k :: 0 <= k < |rows| ==> Prefixed(ls, RowMark)[k] == RowTitle(rows[k].0))
  {
    CompareFrame(RowMark);
    ComparedNotPrefixed(fs, RowMark);
    RowLinesShape(rows);
    RowNamesAt(rows);
    FramedPrefixed([CompareTitle, "", ComparedTitle], ComparedLines(fs), [""], RowLines(rows), RowMark);
  }

  /** A comparison has one bullet per cell of its rows. */
  lemma CompareBullets(fs: seq<FoodView>, rows: Dict<string, seq<ItemView>>)
    ensures |Prefixed(CompareLines(fs, rows), "• ")| == CellCount(rows)
  {
    CompareFrame("• ");
    ComparedNotPrefixed(fs, "• ");
    RowLinesShape(rows);
    FramedPrefixed([CompareTitle, "", ComparedTitle], ComparedLines(fs), [""], RowLines(rows), "• ");
  }

  // ---------------------------------------------------------------- nutrition_question_helper

  const SuggestTitle: string := "🔍 **Suggested foods to search for:**"
  const TipsTitle: string := "💡 **Tips:**"

  /** A titled bullet list, shown only when the list is truthy. */
  function Listed(title: string, f: Field<seq<string>>): seq<string> {
    if Truthy(f) then Titled(title, Bulleted(f.value), true) else []
  }

  function HelperLines(question: Field<string>, suggestions: Field<seq<string>>, tips: Field<seq<string>>): seq<string> {
    ["❓ **Your question:** " + ShowStr(question.GetOr("")), ""] + Listed(SuggestTitle, suggestions) + Listed(TipsTitle, tips)
  }

  method AppendListed(text: string, title: string, f: Field<seq<string>>) returns (t: string)
    ensures t == text + Unlines(Listed(title, f))
  {
    if !(f.Present? && f.value != []) {
      AppendNothing(text);
      return text;
    }
    TitledText(text, title, Bulleted(f.value), true);
    t := text + title + "\n";
    t := AppendBulleted(t, f.value);
    t := t + "\n";
  }

  method FormatHelper(question: Field<string>, suggestions: Field<seq<string>>, tips: Field<seq<string>>) returns (text: string)
    ensures text == Unlines(HelperLines(question, suggestions, tips))
  {
    var asked := "❓ **Your question:** " + ShowStr(question.GetOr(""));
    text := asked + "\n\n";
    UnlinesBlank(asked);
    text := AppendListed(text, SuggestTitle, suggestions);
    text := AppendListed(text, TipsTitle, tips);
    UnlinesSplit3([asked, ""], Listed(SuggestTitle, suggestions), Listed(TipsTitle, tips));
  }

  lemma ListedLines(title: string, f: Field<seq<string>>, p: string)
    requires title != [] && title[0] != '•' && p != [] && p[0] != '•'
    ensures Prefixed(Listed(title, f), p) == if Truthy(f) && StartsWith(title, p) then [title] else []
    ensures |Prefixed(Listed(title, f), "• ")| == |Items(f)|
  {
    if Truthy(f) {
      BulletedShape(f.value);
      TitledPrefixed(title, Bulleted(f.value), true, p);
      TitledBullets(title, Bulleted(f.value), true);
    }
  }

  /** Under a header without such lines, only a shown list's title can start with `p`. */
  lemma ListedTitle(h: seq<string>, t1: string, f1: Field<seq<string>>, t2: string, f2: Field<seq<string>>, p: string)
    requires Prefixed(h, p) == [] && p != [] && p[0] != '•'
    requires t1 != [] && t1[0] != '•' && t2 != [] && t2[0] != '•'
    ensures !StartsWith(t2, p) ==> Prefixed(h + Listed(t1, f1) + Listed(t2, f2), p) == if Truthy(f1) && StartsWith(t1, p) then [t1] else []
    ensures !StartsWith(t1, p) ==> Prefixed(h + Listed(t1, f1) + Listed(t2, f2), p) == if Truthy(f2) && StartsWith(t2, p) then [t2] else []
  {
    PrefixedSplit3(h, Listed(t1, f1), Listed(t2, f2), p);
    ListedLines(t1, f1, p);
    ListedLines(t2, f2, p);
  }

  lemma ListedBullets(h: seq<string>, t1: string, f1: Field<seq<string>>, t2: string, f2: Field<seq<string>>)
    requires Prefixed(h, "• ") == []
    requires t1 != [] && t1[0] != '•' && t2 != [] && t2[0] != '•'
    ensures |Prefixed(h + Listed(t1, f1) + Listed(t2, f2), "• ")| == |Items(f1)| + |Items(f2)|
  {
    PrefixedSplit3(h, Listed(t1, f1), Listed(t2, f2), "• ");
    ListedLines(t1, f1, "*");
    ListedLines(t2, f2, "*");
  }

  /**
   * The suggestions and the tips each have their section exactly when their list is
   * non-empty, with one bullet per element.
   */
  lemma HelperSections(question: Field<string>, suggestions: Field<seq<string>>, tips: Field<seq<string>>)
    ensures var ls := HelperLines(question, suggestions, tips);
      && Prefixed(ls, SuggestTitle) == (if Truthy(suggestions) then [SuggestTitle] else [])
      && Prefixed(ls, TipsTitle) == (if Truthy(tips) then [TipsTitle] else [])
      && |Prefixed(ls, "• ")| == |Items(suggestions)| + |Items(tips)|
  {
    var h := ["❓ **Your question:** " + ShowStr(question.GetOr("")), ""];
    assert h[0][0] == '❓' && SuggestTitle[0] == '🔍' && TipsTitle[0] == '💡';
    FirstCharDiffers(h[0], SuggestTitle);
    FirstCharDiffers(h[0], TipsTitle);
    FirstCharDiffers(h[0], "• ");
    PrefixedNone(h, SuggestTitle);
    PrefixedNone(h, TipsTitle);
    PrefixedNone(h, "• ");
    PrefixedPrefix(SuggestTitle, "");
    PrefixedPrefix(TipsTitle, "");
    assert SuggestTitle + "" == SuggestTitle && TipsTitle + "" == TipsTitle;
    FirstCharDiffers(SuggestTitle, TipsTitle);
    FirstCharDiffers(TipsTitle, SuggestTitle);
    ListedTitle(h, SuggestTitle, suggestions, TipsTitle, tips, SuggestTitle);
    ListedTitle(h, SuggestTitle, suggestions, TipsTitle, tips, TipsTitle);
    ListedBullets(h, SuggestTitle, suggestions, TipsTitle, tips);
  }

  // ---------------------------------------------------------------- dispatch

  /**
   * The text `format_response` renders for a tool's `data`, or the text of the exception
   * it raises; `dumps` is the JSON serialiser of the fallback.
   */
  function ResponseText(tool: string, data: DataView, dumps: DataView -> string): (r: Result<string, string>)
    ensures r.Failure? <==> tool == "compare_foods" && data.foods.Null?
    ensures tool !in {"search_foods", "get_food_nutrition", "compare_foods", "nutrition_question_helper"} ==>
      r == Success(dumps(data))
  {
    if tool == "search_foods" then Success(SearchText(data.foods))
    else if tool == "get_food_nutrition" then
      Success(Unlines(NutritionLines(data.foodInfo.GetOr(EmptyInfo), data.nutrition.GetOr(EmptyNutrition))))
    else if tool == "compare_foods" then
      if data.foods.Null? then Failure(NotIterable)
      else Success(Unlines(CompareLines(Items(data.foods), data.nutrientComparison.GetOr([]))))
    else if tool == "nutrition_question_helper" then
      Success(Unlines(HelperLines(data.question, data.suggestedSearches, data.tips)))
    else Success(dumps(data))
  }

  method FormatResponse(tool: string, data: DataView, dumps: DataView -> string) returns (r: Result<string, string>)
    ensures r == ResponseText(tool, data, dumps)
  {
    var text: string;
    if tool == "search_foods" {
      text := FormatSearch(data.foods);
    } else if tool == "get_food_nutrition" {
      text := FormatNutrition(data.foodInfo.GetOr(EmptyInfo), data.nutrition.GetOr(EmptyNutrition));
    } else if tool == "compare_foods" {
      if data.foods.Null? {
        return Failure(NotIterable);
      }
      text := FormatCompare(Items(data.foods), data.nutrientComparison.GetOr([]));
    } else if tool == "nutrition_question_helper" {
      text := FormatHelper(data.question, data.suggestedSearches, data.tips);
    } else {
      text := dumps(data);
    }
    r := Success(text);
  }

  // ---------------------------------------------------------------- the bridge

  class NutritionMcpBridge {
    var serverUrl: string

    /** The server URL is kept with every trailing '/' removed. */
    constructor(url: string)
      ensures serverUrl == TrimTrailing(url, '/')
      ensures serverUrl == [] || serverUrl[|serverUrl| - 1] != '/'
      ensures |serverUrl| <= |url|
      ensures url == serverUrl + Repeat('/', |url| - |serverUrl|)
    {
      serverUrl := TrimTrailing(url, '/');
      TrimTrailingSpec(url, '/');
    }

    /**
     * `handle_call_tool`: posts to `{server_url}/tools/{name}` and turns what happens
     * into the text shown to the user.
     */
    method HandleCallTool(name: string, exchange: Exchange, dumps: DataView -> string) returns (text: string, url: string)
      ensures url == serverUrl + "/tools/" + name
      ensures exchange.TimedOut? ==> text == TimeoutText
      ensures exchange.TransportFailed? ==> text == "🌐 HTTP Error: " + exchange.message
      ensures exchange.Replied? && !(200 <= exchange.status < 300) ==> text == "🌐 HTTP Error: " + exchange.statusError
      ensures exchange.Replied? && 200 <= exchange.status < 300 && exchange.body.Failure? ==>
        text == "💥 Error calling " + name + ": " + exchange.body.error
      ensures exchange.Replied? && 200 <= exchange.status < 300 && exchange.body.Success? ==>
        var reply := exchange.body.value;
        if reply.success == Present(true) then
          var r := ResponseText(name, reply.data.GetOr(EmptyData), dumps);
          text == (if r.Success? then r.value else "💥 Error calling " + name + ": " + r.error)
        else
          text == "❌ Error: " + ShowStr(reply.error.GetOr("Unknown error occurred"))
    {
      url := serverUrl + "/tools/" + name;
      match exchange
      case TimedOut(_) =>
        text := TimeoutText;
      case TransportFailed(m) =>
        text := "🌐 HTTP Error: " + m;
      case Replied(status, statusError, body) =>
        if !(200 <= status < 300) {
          text := "🌐 HTTP Error: " + statusError;
        } else if body.Failure? {
          text := "💥 Error calling " + name + ": " + body.error;
        } else if body.value.success == Present(true) {
          var r := FormatResponse(name, body.value.data.GetOr(EmptyData), dumps);
          text := if r.Success? then r.value else "💥 Error calling " + name + ": " + r.error;
        } else {
          text := "❌ Error: " + ShowStr(body.value.error.GetOr("Unknown error occurred"));
        }
    }
  }
}
