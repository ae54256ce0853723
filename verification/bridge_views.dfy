/**
 * What the two stdio bridges read from the HTTP server's JSON replies, and the line
 * algebra their text renderers are specified in. A rendered text is a list of lines,
 * each followed by a newline; properties of a rendering are stated over its lines.
 */
module BridgeViews {
  import opened Wrappers
  import opened Fields
  import opened Dicts
  import opened Text
  import opened FoodData

  /** A food as a search or comparison reply lists it. */
  datatype FoodView = FoodView(description: Field<string>, fdcId: Field<int>, brandOwner: Field<string>, dataType: Field<string>)

  /** `food_info` of a nutrition reply. */
  datatype FoodInfoView = FoodInfoView(description: Field<string>, fdcId: Field<int>)

  /** One entry of a nutrient section. */
  datatype NutrientView = NutrientView(amount: Field<Amount>, unit: Field<string>)

  datatype NutritionView = NutritionView(
    macronutrients: Field<Dict<string, NutrientView>>,
    vitamins: Field<Dict<string, NutrientView>>,
    minerals: Field<Dict<string, NutrientView>>)

  /** One cell of a comparison row. */
  datatype ItemView = ItemView(food: Field<string>, amount: Field<Amount>, unit: Field<string>)

  /**
   * The `data` object of a reply, with the keys the renderers read. Keys whose value
   * the renderers test for truthiness keep the null case; the others are missing or set.
   */
  datatype DataView = DataView(
    foods: Field<seq<FoodView>>,
    foodInfo: Option<FoodInfoView>,
    nutrition: Option<NutritionView>,
    nutrientComparison: Option<Dict<string, seq<ItemView>>>,
    question: Field<string>,
    suggestedSearches: Field<seq<string>>,
    tips: Field<seq<string>>)

  /** `{}` */
  const EmptyData: DataView := DataView(Absent, None, None, None, Absent, Absent, Absent)

  /** `{}` in place of a missing `food_info` or `nutrition`. */
  const EmptyInfo: FoodInfoView := FoodInfoView(Absent, Absent)
  const EmptyNutrition: NutritionView := NutritionView(Absent, Absent, Absent)

  /** The envelope as a bridge reads it. */
  datatype ReplyView = ReplyView(success: Field<bool>, data: Option<DataView>, error: Field<string>)

  /**
   * How one POST to a tool endpoint of the server ends: a reply with its status, the text
   * of the status error `raise_for_status` would raise, and the decoded body or the text
   * of the decoding error; or an exception from the transport.
   */
  datatype Exchange =
    | Replied(status: int, statusError: string, body: Result<ReplyView, string>)
    | TimedOut(message: string)
    | TransportFailed(message: string)

  /** Python truthiness of a key holding a list or dict. */
  predicate Truthy<T>(f: Field<seq<T>>) {
    f.Present? && f.value != []
  }

  /** The elements of a list-valued key, none when it is missing or null. */
  function Items<T>(f: Field<seq<T>>): seq<T> {
    if f.Present? then f.value else []
  }

  /** `• {name}: {amount}{unit}` with the amount defaulting to 0 and the unit to "". */
  function Bullet(name: string, amount: Field<Amount>, unit: Field<string>): string {
    "• " + name + ": " + ShowStr(amount.GetOr(ZeroAmount)) + ShowStr(unit.GetOr(""))
  }

  // ---------------------------------------------------------------- lines

  /** The text of `ls`, each line followed by a newline. */
  function Unlines(ls: seq<string>): string {
    if ls == [] then "" else Unlines(ls[..|ls| - 1]) + ls[|ls| - 1] + "\n"
  }

  lemma {:induction false} UnlinesAppend(a: seq<string>, b: seq<string>)
    ensures Unlines(a + b) == Unlines(a) + Unlines(b)
  {
    if b == [] {
      assert a + b == a;
    } else {
      var n := |b| - 1;
      UnlinesAppend(a, b[..n]);
      assert (a + b)[..|a + b| - 1] == a + b[..n];
      assert (a + b)[|a + b| - 1] == b[n];
      var x, y := Unlines(a), Unlines(b[..n]);
      assert Unlines(a + b) == x + y + b[n] + "\n";
      assert Unlines(b) == y + b[n] + "\n";
      assert x + y + b[n] + "\n" == x + (y + b[n] + "\n");
    }
  }

  /** Appending lines `b` after `text` and the lines `a`. */
  lemma UnlinesAppendText(text: string, a: seq<string>, b: seq<string>)
    ensures text + Unlines(a) + Unlines(b) == text + Unlines(a + b)
  {
    UnlinesAppend(a, b);
  }

  predicate StartsWith(s: string, p: string) {
    |p| <= |s| && s[..|p|] == p
  }

  /** The lines of `ls` that start with `p`, in order. */
  function Prefixed(ls: seq<string>, p: string): seq<string> {
    if ls == [] then []
    else Prefixed(ls[..|ls| - 1], p) + (if StartsWith(ls[|ls| - 1], p) then [ls[|ls| - 1]] else [])
  }

  lemma {:induction false} PrefixedAppend(a: seq<string>, b: seq<string>, p: string)
    ensures Prefixed(a + b, p) == Prefixed(a, p) + Prefixed(b, p)
  {
    if b == [] {
      assert a + b == a;
    } else {
      var n := |b| - 1;
      PrefixedAppend(a, b[..n], p);
      assert (a + b)[..|a + b| - 1] == a + b[..n];
    }
  }

  predicate StartsWithDigit(s: string) {
    s != [] && '0' <= s[0] <= '9'
  }

  /** The lines of `ls` that start with a digit: the numbered list items. */
  function Numbered(ls: seq<string>): seq<string> {
    if ls == [] then []
    else Numbered(ls[..|ls| - 1]) + (if StartsWithDigit(ls[|ls| - 1]) then [ls[|ls| - 1]] else [])
  }

  lemma {:induction false} NumberedAppend(a: seq<string>, b: seq<string>)
    ensures Numbered(a + b) == Numbered(a) + Numbered(b)
  {
    if b == [] {
      assert a + b == a;
    } else {
      var n := |b| - 1;
      NumberedAppend(a, b[..n]);
      assert (a + b)[..|a + b| - 1] == a + b[..n];
    }
  }

  /** `{i}. ...` starts with a digit, so not with any prefix that begins otherwise. */
  lemma NumberLineStartsWithDigit(i: nat, rest: string)
    ensures StartsWithDigit(NatToString(i) + rest)
    ensures forall p :: p != [] && !('0' <= p[0] <= '9') ==> !StartsWith(NatToString(i) + rest, p)
  {
    var s := NatToString(i) + rest;
    assert s[0] == NatToString(i)[0];
    forall p | p != [] && !('0' <= p[0] <= '9') ensures !StartsWith(s, p) {
      assert |p| <= |s| ==> s[..|p|][0] == s[0];
    }
  }

  /** Lines whose first characters differ do not start with one another. */
  lemma FirstCharDiffers(s: string, p: string)
    requires s != [] && p != [] && s[0] != p[0]
    ensures !StartsWith(s, p)
  {
    assert |p| <= |s| ==> s[..|p|][0] == s[0];
  }

  /** A line that disagrees with `p` at some position inside both does not start with `p`. */
  lemma DiffersAt(s: string, p: string, k: nat)
    requires k < |s| && k < |p| && s[k] != p[k]
    ensures !StartsWith(s, p)
  {
    assert |p| <= |s| ==> s[..|p|][k] == s[k];
  }

  /** A line that starts with `q` does not start with a `p` that disagrees with `q` early on. */
  lemma DistinctPrefixes(s: string, p: string, q: string, k: nat)
    requires StartsWith(s, q) && k < |p| && k < |q| && p[k] != q[k]
    ensures !StartsWith(s, p)
  {
    assert s[..|q|][k] == q[k];
    assert |p| <= |s| ==> s[..|p|][k] == s[k];
  }

  lemma {:induction false} PrefixedAll(ls: seq<string>, p: string)
    requires forall i :: 0 <= i < |ls| ==> StartsWith(ls[i], p)
    ensures Prefixed(ls, p) == ls
  {
    if ls != [] {
      PrefixedAll(ls[..|ls| - 1], p);
    }
  }

  lemma {:induction false} PrefixedNone(ls: seq<string>, p: string)
    requires forall i :: 0 <= i < |ls| ==> !StartsWith(ls[i], p)
    ensures Prefixed(ls, p) == []
  {
    if ls != [] {
      PrefixedNone(ls[..|ls| - 1], p);
    }
  }

  lemma {:induction false} NumberedAll(ls: seq<string>)
    requires forall i :: 0 <= i < |ls| ==> StartsWithDigit(ls[i])
    ensures Numbered(ls) == ls
  {
    if ls != [] {
      NumberedAll(ls[..|ls| - 1]);
    }
  }

  lemma {:induction false} NumberedNone(ls: seq<string>)
    requires forall i :: 0 <= i < |ls| ==> !StartsWithDigit(ls[i])
    ensures Numbered(ls) == []
  {
    if ls != [] {
      NumberedNone(ls[..|ls| - 1]);
    }
  }

  // ---------------------------------------------------------------- bullet lists

  /** `• {name}: {amount}{unit}` for each entry of a nutrient section, in dict order. */
  function NutrientBullets(d: Dict<string, NutrientView>): seq<string> {
    if d == [] then []
    else
      var e := d[|d| - 1];
      NutrientBullets(d[..|d| - 1]) + [Bullet(e.0, e.1.amount, e.1.unit)]
  }

  lemma BulletIsBullet(name: string, amount: Field<Amount>, unit: Field<string>)
    ensures StartsWith(Bullet(name, amount, unit), "• ")
  {
    var rest := name + ": " + ShowStr(amount.GetOr(ZeroAmount)) + ShowStr(unit.GetOr(""));
    assert Bullet(name, amount, unit) == "• " + rest;
    assert ("• " + rest)[..2] == "• ";
  }

  /** `• {s}` for each string. */
  function Bulleted(ss: seq<string>): seq<string> {
    if ss == [] then [] else Bulleted(ss[..|ss| - 1]) + ["• " + ss[|ss| - 1]]
  }

  /** A bullet list has one line per entry, and each is a bullet. */
  lemma {:induction false} NutrientBulletsShape(d: Dict<string, NutrientView>)
    ensures |NutrientBullets(d)| == |d|
    ensures forall i :: 0 <= i < |d| ==> StartsWith(NutrientBullets(d)[i], "• ")
  {
    if d != [] {
      NutrientBulletsShape(d[..|d| - 1]);
    }
  }

  lemma {:induction false} BulletedShape(ss: seq<string>)
    ensures |Bulleted(ss)| == |ss|
    ensures forall i :: 0 <= i < |ss| ==> StartsWith(Bulleted(ss)[i], "• ")
  {
    if ss != [] {
      BulletedShape(ss[..|ss| - 1]);
    }
  }

  /** Splitting the lines of four parts into the four parts' lines. */
  lemma UnlinesSplit4(h: seq<string>, a: seq<string>, b: seq<string>, c: seq<string>)
    ensures Unlines(h + a + b + c) == Unlines(h) + Unlines(a) + Unlines(b) + Unlines(c)
  {
    UnlinesAppend(h + a + b, c);
    UnlinesAppend(h + a, b);
    UnlinesAppend(h, a);
  }

  lemma PrefixedSplit4(h: seq<string>, a: seq<string>, b: seq<string>, c: seq<string>, p: string)
    ensures Prefixed(h + a + b + c, p) == Prefixed(h, p) + Prefixed(a, p) + Prefixed(b, p) + Prefixed(c, p)
  {
    PrefixedAppend(h + a + b, c, p);
    PrefixedAppend(h + a, b, p);
    PrefixedAppend(h, a, p);
  }

  lemma NumberedSplit4(h: seq<string>, a: seq<string>, b: seq<string>, c: seq<string>)
    ensures Numbered(h + a + b + c) == Numbered(h) + Numbered(a) + Numbered(b) + Numbered(c)
  {
    NumberedAppend(h + a + b, c);
    NumberedAppend(h + a, b);
    NumberedAppend(h, a);
  }

  lemma UnlinesSplit3(h: seq<string>, a: seq<string>, b: seq<string>)
    ensures Unlines(h + a + b) == Unlines(h) + Unlines(a) + Unlines(b)
  {
    UnlinesAppend(h + a, b);
    UnlinesAppend(h, a);
  }

  lemma PrefixedSplit3(h: seq<string>, a: seq<string>, b: seq<string>, p: string)
    ensures Prefixed(h + a + b, p) == Prefixed(h, p) + Prefixed(a, p) + Prefixed(b, p)
  {
    PrefixedAppend(h + a, b, p);
    PrefixedAppend(h, a, p);
  }

  // ---------------------------------------------------------------- titled sections

  /** A title line, its bullets, and a blank line when `blank` holds. */
  function Titled(title: string, bullets: seq<string>, blank: bool): seq<string> {
    [title] + bullets + (if blank then [""] else [])
  }

  /** The text of a titled section. */
  lemma UnlinesTitled(title: string, bullets: seq<string>, blank: bool)
    ensures Unlines(Titled(title, bullets, blank)) == title + "\n" + Unlines(bullets) + (if blank then "\n" else "")
  {
    var tail: seq<string> := if blank then [""] else [];
    UnlinesAppend([title] + bullets, tail);
    UnlinesAppend([title], bullets);
    UnlinesPush([], title);
    assert [] + [title] == [title];
    if blank {
      UnlinesPush([], "");
      assert [] + [""] == [""];
    }
  }

  lemma PrefixedSingle(s: string, p: string)
    ensures Prefixed([s], p) == if StartsWith(s, p) then [s] else []
  {
    assert [s][..0] == [];
  }

  lemma NumberedSingle(s: string)
    ensures Numbered([s]) == if StartsWithDigit(s) then [s] else []
  {
    assert [s][..0] == [];
  }

  lemma DistinctTitle(title: string)
    requires title != [] && title[0] != '•'
    ensures !StartsWith(title, "• ")
  {
    assert |"• "| <= |title| ==> title[..|"• "|][0] == title[0];
  }

  /** The bullet lines of a titled section are exactly its bullets. */
  lemma TitledBullets(title: string, bullets: seq<string>, blank: bool)
    requires title != [] && title[0] != '•'
    requires forall i :: 0 <= i < |bullets| ==> StartsWith(bullets[i], "• ")
    ensures Prefixed(Titled(title, bullets, blank), "• ") == bullets
  {
    var tail: seq<string> := if blank then [""] else [];
    assert Titled(title, bullets, blank) == [title] + bullets + tail;
    PrefixedAppend([title] + bullets, tail, "• ");
    PrefixedAppend([title], bullets, "• ");
    PrefixedSingle(title, "• ");
    DistinctTitle(title);
    PrefixedAll(bullets, "• ");
    PrefixedNone(tail, "• ");
  }

  /** Of a titled section, only the title can start with a prefix that does not begin with a bullet. */
  lemma TitledPrefixed(title: string, bullets: seq<string>, blank: bool, p: string)
    requires p != [] && p[0] != '•'
    requires forall i :: 0 <= i < |bullets| ==> StartsWith(bullets[i], "• ")
    ensures Prefixed(Titled(title, bullets, blank), p) == if StartsWith(title, p) then [title] else []
  {
    var tail: seq<string> := if blank then [""] else [];
    assert Titled(title, bullets, blank) == [title] + bullets + tail;
    PrefixedAppend([title] + bullets, tail, p);
    PrefixedAppend([title], bullets, p);
    PrefixedSingle(title, p);
    BulletsNotPrefixed(bullets, p);
    PrefixedNone(tail, p);
  }

  /** Bullet lines start with no prefix that begins otherwise. */
  lemma BulletsNotPrefixed(bullets: seq<string>, p: string)
    requires p != [] && p[0] != '•'
    requires forall i :: 0 <= i < |bullets| ==> StartsWith(bullets[i], "• ")
    ensures Prefixed(bullets, p) == []
  {
    forall i | 0 <= i < |bullets| ensures !StartsWith(bullets[i], p) {
      DistinctPrefixes(bullets[i], p, "• ", 0);
    }
    PrefixedNone(bullets, p);
  }

  /** A titled section whose title is not numbered holds no numbered line. */
  lemma TitledNumbered(title: string, bullets: seq<string>, blank: bool)
    requires !StartsWithDigit(title)
    requires forall i :: 0 <= i < |bullets| ==> StartsWith(bullets[i], "• ")
    ensures Numbered(Titled(title, bullets, blank)) == []
  {
    var tail: seq<string> := if blank then [""] else [];
    assert Titled(title, bullets, blank) == [title] + bullets + tail;
    NumberedAppend([title] + bullets, tail);
    NumberedAppend([title], bullets);
    NumberedSingle(title);
    forall i | 0 <= i < |bullets| ensures !StartsWithDigit(bullets[i]) {
      assert bullets[i][..2][0] == bullets[i][0];
    }
    NumberedNone(bullets);
    NumberedNone(tail);
  }

  /** A nutrient section: shown only when its dict is truthy. */
  function Section(title: string, f: Field<Dict<string, NutrientView>>, blank: bool): seq<string> {
    if Truthy(f) then Titled(title, NutrientBullets(f.value), blank) else []
  }

  /** A section contributes one bullet per entry, its title iff shown, and no numbered line. */
  lemma SectionLines(title: string, f: Field<Dict<string, NutrientView>>, blank: bool)
    requires title != [] && title[0] != '•' && !StartsWithDigit(title)
    ensures |Prefixed(Section(title, f, blank), "• ")| == |Items(f)|
    ensures Numbered(Section(title, f, blank)) == []
  {
    if Truthy(f) {
      NutrientBulletsShape(f.value);
      TitledBullets(title, NutrientBullets(f.value), blank);
      TitledNumbered(title, NutrientBullets(f.value), blank);
    }
  }

  lemma SectionTitle(title: string, f: Field<Dict<string, NutrientView>>, blank: bool, p: string)
    requires p != [] && p[0] != '•'
    ensures Prefixed(Section(title, f, blank), p) == if Truthy(f) && StartsWith(title, p) then [title] else []
  {
    if Truthy(f) {
      NutrientBulletsShape(f.value);
      TitledPrefixed(title, NutrientBullets(f.value), blank, p);
    }
  }

  /**
   * A header that holds no line starting with `p`, followed by three sections: only a
   * shown section's title can start with `p`.
   */
  lemma SectionsTitle(h: seq<string>, t1: string, f1: Field<Dict<string, NutrientView>>, t2: string,
                      f2: Field<Dict<string, NutrientView>>, t3: string, f3: Field<Dict<string, NutrientView>>, b3: bool, p: string)
    requires Prefixed(h, p) == [] && p != [] && p[0] != '•'
    ensures var ls := h + Section(t1, f1, true) + Section(t2, f2, true) + Section(t3, f3, b3);
      && (!StartsWith(t2, p) && !StartsWith(t3, p) ==> Prefixed(ls, p) == if Truthy(f1) && StartsWith(t1, p) then [t1] else [])
      && (!StartsWith(t1, p) && !StartsWith(t3, p) ==> Prefixed(ls, p) == if Truthy(f2) && StartsWith(t2, p) then [t2] else [])
      && (!StartsWith(t1, p) && !StartsWith(t2, p) ==> Prefixed(ls, p) == if Truthy(f3) && StartsWith(t3, p) then [t3] else [])
  {
    PrefixedSplit4(h, Section(t1, f1, true), Section(t2, f2, true), Section(t3, f3, b3), p);
    SectionTitle(t1, f1, true, p);
    SectionTitle(t2, f2, true, p);
    SectionTitle(t3, f3, b3, p);
    OneOfThree(Prefixed(Section(t1, f1, true), p), Prefixed(Section(t2, f2, true), p), Prefixed(Section(t3, f3, b3), p));
  }

  /** Of three parts, two of them empty, the concatenation is the third. */
  lemma OneOfThree<T>(a: seq<T>, b: seq<T>, c: seq<T>)
    ensures b == [] && c == [] ==> [] + a + b + c == a
    ensures a == [] && c == [] ==> [] + a + b + c == b
    ensures a == [] && b == [] ==> [] + a + b + c == c
  {
    if b == [] && c == [] {
      assert [] + a + b + c == a;
    }
    if a == [] && c == [] {
      assert [] + a + b + c == b;
    }
    if a == [] && b == [] {
      assert [] + a + b + c == c;
    }
  }

  /** Three sections under a header without bullets hold one bullet per entry. */
  lemma SectionsBullets(h: seq<string>, t1: string, f1: Field<Dict<string, NutrientView>>, t2: string,
                        f2: Field<Dict<string, NutrientView>>, t3: string, f3: Field<Dict<string, NutrientView>>, b3: bool)
    requires Prefixed(h, "• ") == []
    requires t1 != [] && t1[0] != '•' && !StartsWithDigit(t1)
    requires t2 != [] && t2[0] != '•' && !StartsWithDigit(t2)
    requires t3 != [] && t3[0] != '•' && !StartsWithDigit(t3)
    ensures |Prefixed(h + Section(t1, f1, true) + Section(t2, f2, true) + Section(t3, f3, b3), "• ")|
      == |Items(f1)| + |Items(f2)| + |Items(f3)|
  {
    PrefixedSplit4(h, Section(t1, f1, true), Section(t2, f2, true), Section(t3, f3, b3), "• ");
    SectionLines(t1, f1, true);
    SectionLines(t2, f2, true);
    SectionLines(t3, f3, b3);
  }

  /** Lines framed by parts with no line of interest contribute only the middle part's. */
  lemma FramedPrefixed(h: seq<string>, a: seq<string>, m: seq<string>, b: seq<string>, p: string)
    requires Prefixed(h, p) == [] && Prefixed(a, p) == [] && Prefixed(m, p) == []
    ensures Prefixed(h + a + m + b, p) == Prefixed(b, p)
  {
    PrefixedSplit4(h, a, m, b, p);
  }

  lemma FramedNumbered(h: seq<string>, a: seq<string>, m: seq<string>, b: seq<string>)
    requires Numbered(h) == [] && Numbered(m) == [] && Numbered(b) == []
    ensures Numbered(h + a + m + b) == Numbered(a)
  {
    NumberedSplit4(h, a, m, b);
  }

  lemma UnlinesPush(ls: seq<string>, line: string)
    ensures Unlines(ls + [line]) == Unlines(ls) + line + "\n"
  {
    assert (ls + [line])[..|ls|] == ls;
  }

  /** Appending one line after `text` and the lines `ls`. */
  lemma UnlinesPushText(text: string, ls: seq<string>, line: string)
    ensures text + Unlines(ls) + line + "\n" == text + Unlines(ls + [line])
  {
    UnlinesPush(ls, line);
    var u := Unlines(ls);
    assert text + u + line + "\n" == text + (u + line + "\n");
  }

  /** Three lines and a blank line, after `text`. */
  lemma UnlinesText4(text: string, a: string, b: string, c: string)
    ensures text + Unlines([a, b, c, ""]) == text + a + "\n" + b + "\n" + c + "\n\n"
  {
    UnlinesPushText(text, [], a);
    assert [] + [a] == [a];
    assert text + Unlines([]) == text;
    UnlinesPushText(text, [a], b);
    assert [a] + [b] == [a, b];
    UnlinesPushText(text, [a, b], c);
    assert [a, b] + [c] == [a, b, c];
    UnlinesPushText(text, [a, b, c], "");
    assert [a, b, c] + [""] == [a, b, c, ""];
    var t := text + a + "\n" + b + "\n" + c;
    assert t + "\n" + "" + "\n" == t + "\n\n";
  }

  /** Two lines and a blank line, after `text`. */
  lemma UnlinesText3(text: string, a: string, c: string)
    ensures text + Unlines([a, c, ""]) == text + a + "\n" + c + "\n\n"
  {
    UnlinesPushText(text, [], a);
    assert [] + [a] == [a];
    assert text + Unlines([]) == text;
    UnlinesPushText(text, [a], c);
    assert [a] + [c] == [a, c];
    UnlinesPushText(text, [a, c], "");
    assert [a, c] + [""] == [a, c, ""];
    var t := text + a + "\n" + c;
    assert t + "\n" + "" + "\n" == t + "\n\n";
  }

  /** Two lines and a blank line. */
  lemma UnlinesPairBlank(a: string, b: string)
    ensures Unlines([a, b, ""]) == a + "\n" + b + "\n\n"
  {
    UnlinesPush([], a);
    assert [] + [a] == [a];
    UnlinesPush([a], b);
    assert [a] + [b] == [a, b];
    UnlinesPush([a, b], "");
    assert [a, b] + [""] == [a, b, ""];
  }

  /** A line, a blank line, and a line. */
  lemma UnlinesBlankBetween(a: string, b: string)
    ensures Unlines([a, "", b]) == a + "\n\n" + b + "\n"
  {
    UnlinesBlank(a);
    UnlinesPush([a, ""], b);
    assert [a, ""] + [b] == [a, "", b];
  }

  /** A blank line on its own. */
  lemma UnlinesEmptyLine()
    ensures Unlines([""]) == "\n"
  {
    UnlinesPush([], "");
    assert [] + [""] == [""];
  }

  /** A line followed by a blank line. */
  lemma UnlinesBlank(line: string)
    ensures Unlines([line, ""]) == line + "\n\n"
  {
    UnlinesPush([], line);
    assert [] + [line] == [line];
    UnlinesPush([line], "");
    assert [line] + [""] == [line, ""];
  }

  /** The text of one more bullet line. */
  lemma BulletedStep(text: string, ss: seq<string>, i: nat)
    requires i < |ss|
    ensures text + Unlines(Bulleted(ss[..i])) + ("• " + ss[i]) + "\n" == text + Unlines(Bulleted(ss[..i + 1]))
  {
    assert ss[..i + 1][..i] == ss[..i];
    UnlinesPushText(text, Bulleted(ss[..i]), "• " + ss[i]);
  }

  /** Appends one bullet line per string. */
  method AppendBulleted(text: string, ss: seq<string>) returns (t: string)
    ensures t == text + Unlines(Bulleted(ss))
  {
    t := text;
    var i := 0;
    while i < |ss|
      invariant 0 <= i <= |ss|
      invariant t == text + Unlines(Bulleted(ss[..i]))
    {
      BulletedStep(text, ss, i);
      var bullet := "• " + ss[i];
      t := t + bullet + "\n";
      i := i + 1;
    }
    assert ss[..i] == ss;
  }

  /** Appending no lines leaves the text as it is. */
  lemma AppendNothing(text: string)
    ensures text + Unlines([]) == text
  {
    assert text + "" == text;
  }

  /** The text of a titled section, appended to `text`. */
  lemma TitledText(text: string, title: string, bullets: seq<string>, blank: bool)
    ensures blank ==> text + Unlines(Titled(title, bullets, blank)) == text + title + "\n" + Unlines(bullets) + "\n"
    ensures !blank ==> text + Unlines(Titled(title, bullets, blank)) == text + title + "\n" + Unlines(bullets)
  {
    UnlinesTitled(title, bullets, blank);
    if !blank {
      assert title + "\n" + Unlines(bullets) + "" == title + "\n" + Unlines(bullets);
    }
  }

  /** The text of one more nutrient bullet. */
  lemma NutrientStep(text: string, d: Dict<string, NutrientView>, i: nat)
    requires i < |d|
    ensures text + Unlines(NutrientBullets(d[..i])) + Bullet(d[i].0, d[i].1.amount, d[i].1.unit) + "\n"
      == text + Unlines(NutrientBullets(d[..i + 1]))
  {
    assert d[..i + 1][..i] == d[..i];
    UnlinesPushText(text, NutrientBullets(d[..i]), Bullet(d[i].0, d[i].1.amount, d[i].1.unit));
  }

  /** The nutrient loop: one bullet per entry of `d`. */
  method AppendNutrients(text: string, d: Dict<string, NutrientView>) returns (t: string)
    ensures t == text + Unlines(NutrientBullets(d))
  {
    t := text;
    var i := 0;
    while i < |d|
      invariant 0 <= i <= |d|
      invariant t == text + Unlines(NutrientBullets(d[..i]))
    {
      NutrientStep(text, d, i);
      t := t + Bullet(d[i].0, d[i].1.amount, d[i].1.unit) + "\n";
      i := i + 1;
    }
    assert d[..i] == d;
  }

  /** The section loop: `result += title`, one bullet per entry, then the blank line if any. */
  method AppendSection(text: string, title: string, f: Field<Dict<string, NutrientView>>, blank: bool) returns (t: string)
    ensures t == text + Unlines(Section(title, f, blank))
  {
    if !(f.Present? && f.value != []) {
      AppendNothing(text);
      return text;
    }
    TitledText(text, title, NutrientBullets(f.value), blank);
    t := text + title + "\n";
    t := AppendNutrients(t, f.value);
    if blank {
      t := t + "\n";
    }
  }


  // ---------------------------------------------------------------- search listings

  /** `{i}. **{description}** (ID: {fdc_id})`, the description defaulting to 'Unknown'. */
  function FoodHeading(i: nat, f: FoodView): string {
    NatToString(i) + ". **" + ShowStr(f.description.GetOr("Unknown")) + "** (ID: " + ShowInt(f.fdcId.Get()) + ")"
  }

  /**
   * The lines of the `i`-th food of a search listing: its heading, a brand line when the
   * brand owner is truthy, its type line, and a blank line.
   */
  function FoodBlock(i: nat, f: FoodView, brandPrefix: string, typePrefix: string): seq<string> {
    [FoodHeading(i, f)]
    + (if StrTruthy(f.brandOwner.Get()) then [brandPrefix + f.brandOwner.value] else [])
    + [typePrefix + ShowStr(f.dataType.GetOr("Unknown")), ""]
  }

  /** The blocks of `fs`, numbered from 1 in input order. */
  function FoodBlocks(fs: seq<FoodView>, brandPrefix: string, typePrefix: string): seq<string> {
    if fs == [] then []
    else FoodBlocks(fs[..|fs| - 1], brandPrefix, typePrefix) + FoodBlock(|fs|, fs[|fs| - 1], brandPrefix, typePrefix)
  }

  /** `🍎 Found {n} foods:` and a blank line. */
  function SearchHeader(n: nat): seq<string> {
    ["🍎 Found " + NatToString(n) + " foods:", ""]
  }

  /** The foods whose brand owner is truthy, in order. */
  function Branded(fs: seq<FoodView>): seq<FoodView> {
    if fs == [] then []
    else Branded(fs[..|fs| - 1]) + (if StrTruthy(fs[|fs| - 1].brandOwner.Get()) then [fs[|fs| - 1]] else [])
  }

  /** Brand and type prefixes: both indented, and telling each other apart by their fourth character. */
  predicate LinePrefixes(brandPrefix: string, typePrefix: string) {
    |brandPrefix| > 3 && |typePrefix| > 3 && brandPrefix[0] == ' ' && typePrefix[0] == ' ' && brandPrefix[3] != typePrefix[3]
  }

  lemma PrefixedPrefix(p: string, rest: string)
    ensures StartsWith(p + rest, p)
  {
    assert (p + rest)[..|p|] == p;
  }

  /** A line starting with a digit starts with no prefix that begins otherwise. */
  lemma DigitNotPrefixed(s: string, p: string)
    requires StartsWithDigit(s) && p != [] && !('0' <= p[0] <= '9')
    ensures !StartsWith(s, p)
  {
    assert |p| <= |s| ==> s[..|p|][0] == s[0];
  }

  /** An indented line does not start with a digit. */
  lemma IndentedNotDigit(s: string, p: string)
    requires StartsWith(s, p) && p != [] && p[0] == ' '
    ensures !StartsWithDigit(s)
  {
    assert s[..|p|][0] == s[0];
  }

  lemma HeadingIsNumbered(i: nat, f: FoodView)
    ensures StartsWithDigit(FoodHeading(i, f))
  {
    var rest := ". **" + ShowStr(f.description.GetOr("Unknown")) + "** (ID: " + ShowInt(f.fdcId.Get()) + ")";
    assert FoodHeading(i, f) == NatToString(i) + rest;
    NumberLineStartsWithDigit(i, rest);
  }

  /** The shape of one food block, over its lines: a numbered heading, brand lines, a type line and a blank. */
  lemma BlockNumbered(heading: string, brand: seq<string>, typeLine: string, bp: string, tp: string)
    requires LinePrefixes(bp, tp) && StartsWithDigit(heading) && StartsWith(typeLine, tp)
    requires forall j :: 0 <= j < |brand| ==> StartsWith(brand[j], bp)
    ensures Numbered([heading] + brand + [typeLine, ""]) == [heading]
  {
    var ls := [heading] + brand + [typeLine, ""];
    forall j | 1 <= j < |ls| ensures !StartsWithDigit(ls[j]) {
      if j <= |brand| {
        assert ls[j] == brand[j - 1];
        IndentedNotDigit(brand[j - 1], bp);
      } else if j == |brand| + 1 {
        assert ls[j] == typeLine;
        IndentedNotDigit(typeLine, tp);
      } else {
        assert ls[j] == "";
      }
    }
    NumberedHead(ls);
  }

  /** A list whose only numbered line is its first. */
  lemma {:induction false} NumberedHead(ls: seq<string>)
    requires ls != [] && StartsWithDigit(ls[0])
    requires forall j :: 1 <= j < |ls| ==> !StartsWithDigit(ls[j])
    ensures Numbered(ls) == [ls[0]]
  {
    if |ls| == 1 {
      NumberedSingle(ls[0]);
      assert ls == [ls[0]];
    } else {
      var p := ls[..|ls| - 1];
      assert p[0] == ls[0];
      forall j | 1 <= j < |p| ensures !StartsWithDigit(p[j]) {
        assert p[j] == ls[j];
      }
      NumberedHead(p);
      assert !StartsWithDigit(ls[|ls| - 1]);
    }
  }

  lemma BlockPrefixed(heading: string, brand: seq<string>, typeLine: string, bp: string, tp: string)
    requires LinePrefixes(bp, tp) && StartsWithDigit(heading) && StartsWith(typeLine, tp)
    requires forall j :: 0 <= j < |brand| ==> StartsWith(brand[j], bp)
    ensures Prefixed([heading] + brand + [typeLine, ""], bp) == brand
    ensures Prefixed([heading] + brand + [typeLine, ""], tp) == [typeLine]
  {
    PrefixedAppend([heading] + brand, [typeLine, ""], bp);
    PrefixedAppend([heading], brand, bp);
    PrefixedAppend([heading] + brand, [typeLine, ""], tp);
    PrefixedAppend([heading], brand, tp);
    DigitNotPrefixed(heading, bp);
    DigitNotPrefixed(heading, tp);
    PrefixedSingle(heading, bp);
    PrefixedSingle(heading, tp);
    PrefixedAll(brand, bp);
    forall j | 0 <= j < |brand| ensures !StartsWith(brand[j], tp) {
      DistinctPrefixes(brand[j], tp, bp, 3);
    }
    PrefixedNone(brand, tp);
    DistinctPrefixes(typeLine, bp, tp, 3);
    PrefixedNone([typeLine, ""], bp);
    PrefixedAppend([typeLine], [""], tp);
    PrefixedSingle(typeLine, tp);
    PrefixedSingle("", tp);
  }

  lemma FoodBlockLines(i: nat, f: FoodView, bp: string, tp: string)
    requires LinePrefixes(bp, tp)
    ensures Numbered(FoodBlock(i, f, bp, tp)) == [FoodHeading(i, f)]
    ensures Prefixed(FoodBlock(i, f, bp, tp), bp) == if StrTruthy(f.brandOwner.Get()) then [bp + f.brandOwner.value] else []
    ensures |Prefixed(FoodBlock(i, f, bp, tp), tp)| == 1
  {
    var brand: seq<string> := if StrTruthy(f.brandOwner.Get()) then [bp + f.brandOwner.value] else [];
    var typeLine := tp + ShowStr(f.dataType.GetOr("Unknown"));
    assert FoodBlock(i, f, bp, tp) == [FoodHeading(i, f)] + brand + [typeLine, ""];
    HeadingIsNumbered(i, f);
    PrefixedPrefix(tp, ShowStr(f.dataType.GetOr("Unknown")));
    if StrTruthy(f.brandOwner.Get()) {
      PrefixedPrefix(bp, f.brandOwner.value);
    }
    BlockNumbered(FoodHeading(i, f), brand, typeLine, bp, tp);
    BlockPrefixed(FoodHeading(i, f), brand, typeLine, bp, tp);
  }

  /** The headings of `fs`, numbered from 1. */
  function Headings(fs: seq<FoodView>): (hs: seq<string>)
    ensures |hs| == |fs|
  {
    if fs == [] then [] else Headings(fs[..|fs| - 1]) + [FoodHeading(|fs|, fs[|fs| - 1])]
  }

  lemma {:induction false} HeadingAt(fs: seq<FoodView>, k: nat)
    requires k < |fs|
    ensures Headings(fs)[k] == FoodHeading(k + 1, fs[k])
  {
    var p := fs[..|fs| - 1];
    if k < |p| {
      HeadingAt(p, k);
      assert p[k] == fs[k];
    }
  }

  lemma HeadingsAt(fs: seq<FoodView>)
    ensures |Headings(fs)| == |fs|
    ensures forall k :: 0 <= k < |fs| ==> Headings(fs)[k] == FoodHeading(k + 1, fs[k])
  {
    forall k | 0 <= k < |fs| ensures Headings(fs)[k] == FoodHeading(k + 1, fs[k]) {
      HeadingAt(fs, k);
    }
  }

  /** The numbered lines of a listing are its headings. */
  lemma {:induction false} FoodBlocksNumbered(fs: seq<FoodView>, bp: string, tp: string)
    requires LinePrefixes(bp, tp)
    ensures Numbered(FoodBlocks(fs, bp, tp)) == Headings(fs)
  {
    if fs != [] {
      var n := |fs| - 1;
      var p := fs[..n];
      var block := FoodBlock(|fs|, fs[n], bp, tp);
      assert FoodBlocks(fs, bp, tp) == FoodBlocks(p, bp, tp) + block;
      FoodBlocksNumbered(p, bp, tp);
      FoodBlockLines(|fs|, fs[n], bp, tp);
      NumberedAppend(FoodBlocks(p, bp, tp), block);
    }
  }

  /** A listing has one brand line per food with a truthy brand owner, and one type line per food. */
  lemma {:induction false} FoodBlocksPrefixed(fs: seq<FoodView>, bp: string, tp: string)
    requires LinePrefixes(bp, tp)
    ensures |Prefixed(FoodBlocks(fs, bp, tp), bp)| == |Branded(fs)|
    ensures |Prefixed(FoodBlocks(fs, bp, tp), tp)| == |fs|
  {
    if fs != [] {
      var n := |fs| - 1;
      var p := fs[..n];
      var block := FoodBlock(|fs|, fs[n], bp, tp);
      assert FoodBlocks(fs, bp, tp) == FoodBlocks(p, bp, tp) + block;
      FoodBlocksPrefixed(p, bp, tp);
      FoodBlockLines(|fs|, fs[n], bp, tp);
      PrefixedAppend(FoodBlocks(p, bp, tp), block, bp);
      PrefixedAppend(FoodBlocks(p, bp, tp), block, tp);
    }
  }

  /** The header holds no numbered, brand or type line. */
  lemma SearchHeaderLines(n: nat, bp: string, tp: string)
    requires LinePrefixes(bp, tp)
    ensures Numbered(SearchHeader(n)) == [] && Prefixed(SearchHeader(n), bp) == [] && Prefixed(SearchHeader(n), tp) == []
  {
    var h := SearchHeader(n);
    assert h[0][0] == '🍎';
    assert |bp| <= |h[0]| ==> h[0][..|bp|][0] == h[0][0];
    assert |tp| <= |h[0]| ==> h[0][..|tp|][0] == h[0][0];
    assert !StartsWith(h[0], bp) && !StartsWith(h[0], tp) && !StartsWithDigit(h[0]);
    NumberedNone(h);
    PrefixedNone(h, bp);
    PrefixedNone(h, tp);
  }

  /** A search listing: the header, then the numbered food blocks. */
  lemma SearchListingLines(fs: seq<FoodView>, bp: string, tp: string)
    requires LinePrefixes(bp, tp)
    ensures var ls := SearchHeader(|fs|) + FoodBlocks(fs, bp, tp);
      && |Numbered(ls)| == |fs|
      && (forall k :: 0 <= k < |fs| ==> Numbered(ls)[k] == FoodHeading(k + 1, fs[k]))
      && |Prefixed(ls, bp)| == |Branded(fs)|
      && |Prefixed(ls, tp)| == |fs|
  {
    SearchHeaderLines(|fs|, bp, tp);
    FoodBlocksNumbered(fs, bp, tp);
    HeadingsAt(fs);
    FoodBlocksPrefixed(fs, bp, tp);
    NumberedAppend(SearchHeader(|fs|), FoodBlocks(fs, bp, tp));
    PrefixedAppend(SearchHeader(|fs|), FoodBlocks(fs, bp, tp), bp);
    PrefixedAppend(SearchHeader(|fs|), FoodBlocks(fs, bp, tp), tp);
  }

  /** The text of one food block, appended to `text`. */
  lemma FoodBlockText(text: string, i: nat, f: FoodView, bp: string, tp: string)
    ensures StrTruthy(f.brandOwner.Get()) ==>
      (text + Unlines(FoodBlock(i, f, bp, tp))
       == text + FoodHeading(i, f) + "\n" + (bp + f.brandOwner.value) + "\n" + (tp + ShowStr(f.dataType.GetOr("Unknown"))) + "\n\n")
    ensures !StrTruthy(f.brandOwner.Get()) ==>
      (text + Unlines(FoodBlock(i, f, bp, tp))
       == text + FoodHeading(i, f) + "\n" + (tp + ShowStr(f.dataType.GetOr("Unknown"))) + "\n\n")
  {
    var heading, typeLine := FoodHeading(i, f), tp + ShowStr(f.dataType.GetOr("Unknown"));
    if StrTruthy(f.brandOwner.Get()) {
      var brand := bp + f.brandOwner.value;
      assert FoodBlock(i, f, bp, tp) == [heading, brand, typeLine, ""];
      UnlinesText4(text, heading, brand, typeLine);
    } else {
      assert FoodBlock(i, f, bp, tp) == [heading, typeLine, ""];
      UnlinesText3(text, heading, typeLine);
    }
  }

  /** One iteration of the search loop: the heading, the brand line if any, and the type line with a blank line. */
  method AppendFoodBlock(text: string, i: nat, food: FoodView, bp: string, tp: string) returns (t: string)
    ensures t == text + Unlines(FoodBlock(i, food, bp, tp))
  {
    FoodBlockText(text, i, food, bp, tp);
    t := text + FoodHeading(i, food) + "\n";
    if food.brandOwner.Present? && food.brandOwner.value != "" {
      t := t + (bp + food.brandOwner.value) + "\n";
    }
    t := t + (tp + ShowStr(food.dataType.GetOr("Unknown"))) + "\n\n";
  }

  /** The text of one more food block. */
  lemma FoodBlocksStep(text: string, fs: seq<FoodView>, i: nat, bp: string, tp: string)
    requires i < |fs|
    ensures text + Unlines(FoodBlocks(fs[..i], bp, tp)) + Unlines(FoodBlock(i + 1, fs[i], bp, tp))
      == text + Unlines(FoodBlocks(fs[..i + 1], bp, tp))
  {
    assert fs[..i + 1][..i] == fs[..i];
    UnlinesAppendText(text, FoodBlocks(fs[..i], bp, tp), FoodBlock(i + 1, fs[i], bp, tp));
  }

  /** The search loop over the foods, numbered from 1. */
  method AppendFoodBlocks(text: string, fs: seq<FoodView>, bp: string, tp: string) returns (t: string)
    ensures t == text + Unlines(FoodBlocks(fs, bp, tp))
  {
    t := text;
    var i := 0;
    while i < |fs|
      invariant 0 <= i <= |fs|
      invariant t == text + Unlines(FoodBlocks(fs[..i], bp, tp))
    {
      FoodBlocksStep(text, fs, i, bp, tp);
      t := AppendFoodBlock(t, i + 1, fs[i], bp, tp);
      i := i + 1;
    }
    assert fs[..i] == fs;
  }
}
