/**
 * The nutrient categorisation inside the HTTP server's `get_food_nutrition`: one pass
 * over a food's nutrient records that sorts each record with an amount into
 * macronutrients, vitamins or minerals by its id, or into a capped list of others.
 */
module NutrientClassifier {
  import opened Wrappers
  import opened Fields
  import opened Dicts
  import opened FoodData

  const MacroNutrients: map<int, string> := map[
    1008 := "Energy (kcal)", 1003 := "Protein", 1004 := "Total Fat",
    1005 := "Carbohydrate", 1079 := "Fiber", 2000 := "Sugar"]

  const VitaminNutrients: map<int, string> := map[
    1106 := "Vitamin A", 1162 := "Vitamin C", 1114 := "Vitamin D",
    1109 := "Vitamin E", 1185 := "Folate"]

  const MineralNutrients: map<int, string> := map[
    1087 := "Calcium", 1089 := "Iron", 1090 := "Magnesium", 1091 := "Phosphorus",
    1092 := "Potassium", 1093 := "Sodium", 1095 := "Zinc"]

  /** How many unclassified nutrients the summary keeps. */
  const OtherNutrientsCap: nat := 10

  datatype Category = Macro | Vitamin | Mineral | Other

  /** The first table, in the order macro, vitamin, mineral, whose ids include `id`. */
  function CategoryOf(id: Option<int>): (c: Category)
    ensures c == Macro <==> id.Some? && id.value in MacroNutrients
    ensures c == Vitamin <==> id.Some? && id.value in VitaminNutrients
    ensures c == Mineral <==> id.Some? && id.value in MineralNutrients
  {
    if id.Some? && id.value in MacroNutrients then Macro
    else if id.Some? && id.value in VitaminNutrients then Vitamin
    else if id.Some? && id.value in MineralNutrients then Mineral
    else Other
  }

  /** The three id tables share no id, so the order in which they are tried never matters. */
  lemma TablesDisjoint()
    ensures MacroNutrients.Keys !! VitaminNutrients.Keys
    ensures MacroNutrients.Keys !! MineralNutrients.Keys
    ensures VitaminNutrients.Keys !! MineralNutrients.Keys
  {
    MacroNotVitamin();
    MacroNotMineral();
    VitaminNotMineral();
  }

  lemma MacroNotVitamin()
    ensures MacroNutrients.Keys !! VitaminNutrients.Keys
  {
  }

  lemma MacroNotMineral()
    ensures MacroNutrients.Keys !! MineralNutrients.Keys
  {
  }

  lemma VitaminNotMineral()
    ensures VitaminNutrients.Keys !! MineralNutrients.Keys
  {
  }

  /** `{"name": ..., "amount": ..., "unit": ...}` for a record that has an amount. */
  datatype NutrientData = NutrientData(name: Option<string>, amount: Amount, unit: Option<string>)

  /** `nutrition_summary["nutrition"]`: three dicts keyed by upstream name, and a list. */
  datatype Nutrition = Nutrition(
    macronutrients: Dict<Option<string>, NutrientData>,
    vitamins: Dict<Option<string>, NutrientData>,
    minerals: Dict<Option<string>, NutrientData>,
    otherNutrients: seq<NutrientData>)

  /** The entry a record yields, or None when its amount is None (missing or null). */
  function DataOf(r: NutrientRecord): Option<NutrientData> {
    match r.amount.Get()
    case None => None
    case Some(a) => Some(NutrientData(r.name.Get(), a, r.unitName.Get()))
  }

  function CategoryOfRecord(r: NutrientRecord): Category {
    CategoryOf(r.id.Get())
  }

  /** The write a record makes into the dict of category `c`, if any. */
  function Selected(r: NutrientRecord, c: Category): Option<(Option<string>, NutrientData)> {
    if CategoryOfRecord(r) == c && DataOf(r).Some? then Some((DataOf(r).value.name, DataOf(r).value)) else None
  }

  function Selector(c: Category): NutrientRecord -> Option<(Option<string>, NutrientData)> {
    r => Selected(r, c)
  }

  /** The entries of the records with an amount and no table, in input order. */
  function OtherData(rs: seq<NutrientRecord>): seq<NutrientData> {
    if rs == [] then []
    else
      var ds := OtherData(rs[..|rs| - 1]);
      var r := rs[|rs| - 1];
      if DataOf(r).Some? && CategoryOfRecord(r) == Other then ds + [DataOf(r).value] else ds
  }

  /** `s[:n]` */
  function Take<T>(s: seq<T>, n: nat): seq<T> {
    if |s| <= n then s else s[..n]
  }

  /**
   * The summary the loop produces, stated per bucket: each dict is what writing every
   * selected record under its name, in order, yields; the other list is the first ten
   * unclassified entries.
   */
  function Classified(rs: seq<NutrientRecord>): (n: Nutrition)
    ensures |n.otherNutrients| <= OtherNutrientsCap && |n.otherNutrients| <= |OtherData(rs)|
    ensures n.otherNutrients == OtherData(rs)[..|n.otherNutrients|]
    ensures |OtherData(rs)| <= OtherNutrientsCap ==> n.otherNutrients == OtherData(rs)
    ensures |n.otherNutrients| == if |OtherData(rs)| <= OtherNutrientsCap then |OtherData(rs)| else OtherNutrientsCap
  {
    Nutrition(
      PutEach(rs, Selector(Macro)),
      PutEach(rs, Selector(Vitamin)),
      PutEach(rs, Selector(Mineral)),
      Take(OtherData(rs), OtherNutrientsCap))
  }

  lemma OtherDataSnoc(rs: seq<NutrientRecord>, r: NutrientRecord)
    ensures OtherData(rs + [r]) ==
      if DataOf(r).Some? && CategoryOfRecord(r) == Other then OtherData(rs) + [DataOf(r).value] else OtherData(rs)
  {
    assert (rs + [r])[..|rs|] == rs;
  }

  /** What one pass of the categorisation loop does with record `r`. */
  function ClassifyRecord(n: Nutrition, r: NutrientRecord): Nutrition {
    match DataOf(r)
    case None => n
    case Some(data) =>
      match CategoryOfRecord(r)
      case Macro => n.(macronutrients := Put(n.macronutrients, data.name, data))
      case Vitamin => n.(vitamins := Put(n.vitamins, data.name, data))
      case Mineral => n.(minerals := Put(n.minerals, data.name, data))
      case Other =>
        if |n.otherNutrients| < OtherNutrientsCap then n.(otherNutrients := n.otherNutrients + [data]) else n
  }

  lemma TakeSnoc<T>(s: seq<T>, x: T, n: nat)
    ensures Take(s + [x], n) == if |Take(s, n)| < n then Take(s, n) + [x] else Take(s, n)
  {
    if n <= |s| {
      assert (s + [x])[..n] == s[..n];
    }
  }

  /** The summary of one more record is one more pass of the loop. */
  lemma ClassifiedStep(rs: seq<NutrientRecord>, i: nat)
    requires i < |rs|
    ensures Classified(rs[..i + 1]) == ClassifyRecord(Classified(rs[..i]), rs[i])
  {
    var r := rs[i];
    assert Selector(Macro)(r) == Selected(r, Macro);
    assert Selector(Vitamin)(r) == Selected(r, Vitamin);
    assert Selector(Mineral)(r) == Selected(r, Mineral);
    PutEachStep(rs, i, Selector(Macro));
    PutEachStep(rs, i, Selector(Vitamin));
    PutEachStep(rs, i, Selector(Mineral));
    assert rs[..i + 1] == rs[..i] + [r];
    OtherDataSnoc(rs[..i], r);
    if DataOf(r).Some? && CategoryOfRecord(r) == Other {
      TakeSnoc(OtherData(rs[..i]), DataOf(r).value, OtherNutrientsCap);
    }
  }

  /** The categorisation loop of `get_food_nutrition`. */
  method ClassifyNutrients(rs: seq<NutrientRecord>) returns (n: Nutrition)
    ensures n == Classified(rs)
  {
    var macros: Dict<Option<string>, NutrientData> := [];
    var vitamins: Dict<Option<string>, NutrientData> := [];
    var minerals: Dict<Option<string>, NutrientData> := [];
    var other: seq<NutrientData> := [];
    var i := 0;
    while i < |rs|
      invariant 0 <= i <= |rs|
      invariant Nutrition(macros, vitamins, minerals, other) == Classified(rs[..i])
    {
      ClassifiedStep(rs, i);
      ghost var before := Nutrition(macros, vitamins, minerals, other);
      var r := rs[i];
      var id, name, amount, unit := r.id.Get(), r.name.Get(), r.amount.Get(), r.unitName.Get();
      assert CategoryOfRecord(r) == CategoryOf(id);
      if amount.Some? {
        var data := NutrientData(name, amount.value, unit);
        assert DataOf(r) == Some(data);
        if id.Some? && id.value in MacroNutrients {
          macros := Put(macros, name, data);
        } else if id.Some? && id.value in VitaminNutrients {
          vitamins := Put(vitamins, name, data);
        } else if id.Some? && id.value in MineralNutrients {
          minerals := Put(minerals, name, data);
        } else if |other| < OtherNutrientsCap {
          other := other + [data];
        }
      }
      assert Nutrition(macros, vitamins, minerals, other) == ClassifyRecord(before, r);
      i := i + 1;
    }
    assert rs[..i] == rs;
    n := Nutrition(macros, vitamins, minerals, other);
  }

  function Bucket(n: Nutrition, c: Category): Dict<Option<string>, NutrientData>
    requires c != Other
  {
    match c
    case Macro => n.macronutrients
    case Vitamin => n.vitamins
    case Mineral => n.minerals
  }

  /** Record `r` has an amount, belongs to category `c` and is named `name`. */
  predicate Lands(r: NutrientRecord, c: Category, name: Option<string>) {
    DataOf(r).Some? && CategoryOfRecord(r) == c && r.name.Get() == name
  }

  lemma SelectorWrites(r: NutrientRecord, c: Category, name: Option<string>)
    requires c != Other
    ensures Writes(Selector(c)(r), name) <==> Lands(r, c, name)
    ensures Writes(Selector(c)(r), name) ==> Selector(c)(r).value.1 == DataOf(r).value && r.amount.Present?
  {
  }

  /**
   * Bucket `c` holds an entry under `name` exactly when some record with an amount,
   * category `c` and that name exists; the entry is the last such record's name, amount
   * and unit, so a later record overwrites an earlier one.
   */
  lemma BucketEntry(rs: seq<NutrientRecord>, c: Category, name: Option<string>)
    requires c != Other
    ensures Get(Bucket(Classified(rs), c), name).None? <==>
      forall i :: 0 <= i < |rs| ==> !Lands(rs[i], c, name)
    ensures Get(Bucket(Classified(rs), c), name).Some? ==>
      exists i :: 0 <= i < |rs| && Lands(rs[i], c, name)
        && Get(Bucket(Classified(rs), c), name) == DataOf(rs[i])
        && DataOf(rs[i]).value.name == name
        && rs[i].amount.Present?
        && forall j :: i < j < |rs| ==> !Lands(rs[j], c, name)
  {
    var sel := Selector(c);
    var b := Bucket(Classified(rs), c);
    assert b == PutEach(rs, sel);
    PutEachGet(rs, sel, name);
    forall i | 0 <= i < |rs| ensures Writes(sel(rs[i]), name) <==> Lands(rs[i], c, name) {
      SelectorWrites(rs[i], c, name);
    }
    if Get(b, name).Some? {
      var i :| LastWrite(rs, sel, name, i) && Get(b, name) == Some(sel(rs[i]).value.1);
      SelectorWrites(rs[i], c, name);
    }
  }

  /** The names in bucket `c`, in order of the first record that wrote each. */
  lemma BucketNames(rs: seq<NutrientRecord>, c: Category)
    requires c != Other
    ensures Keys(Bucket(Classified(rs), c)) == Dedup(WrittenKeys(rs, Selector(c)))
  {
    PutEachKeys(rs, Selector(c));
  }

  /** `d` is the entry of some record of `rs` that has an amount and no table. */
  ghost predicate FromOtherRecord(rs: seq<NutrientRecord>, d: NutrientData) {
    exists i :: 0 <= i < |rs| && rs[i].amount.Present? && CategoryOfRecord(rs[i]) == Other && DataOf(rs[i]) == Some(d)
  }

  /** Every entry in the other list is the entry of some unclassified record with an amount. */
  lemma {:induction false} OtherDataFromRecords(rs: seq<NutrientRecord>)
    ensures forall k :: 0 <= k < |OtherData(rs)| ==> FromOtherRecord(rs, OtherData(rs)[k])
  {
    if rs != [] {
      var n := |rs| - 1;
      var p := rs[..n];
      assert rs == p + [rs[n]];
      OtherDataSnoc(p, rs[n]);
      OtherDataFromRecords(p);
      forall k | 0 <= k < |OtherData(rs)| ensures FromOtherRecord(rs, OtherData(rs)[k]) {
        if k < |OtherData(p)| {
          assert FromOtherRecord(p, OtherData(p)[k]);
          var i :| 0 <= i < |p| && p[i].amount.Present? && CategoryOfRecord(p[i]) == Other
            && DataOf(p[i]) == Some(OtherData(p)[k]);
          assert rs[i] == p[i];
        } else {
          assert DataOf(rs[n]) == Some(OtherData(rs)[k]);
          assert rs[n].amount.Present? && CategoryOfRecord(rs[n]) == Other;
        }
      }
    }
  }

  /** Record `r` has an amount and is in none of the tables. */
  predicate Unclassified(r: NutrientRecord) {
    DataOf(r).Some? && CategoryOfRecord(r) == Other
  }

  /** The entries of the first `i` records are the first entries of all of them. */
  lemma {:induction false} OtherDataPrefix(rs: seq<NutrientRecord>, i: nat)
    requires i <= |rs|
    ensures |OtherData(rs[..i])| <= |OtherData(rs)|
    ensures OtherData(rs[..i]) == OtherData(rs)[..|OtherData(rs[..i])|]
    decreases |rs| - i
  {
    if i == |rs| {
      assert rs[..i] == rs;
    } else {
      var n := |rs| - 1;
      var p := rs[..n];
      OtherDataPrefix(p, i);
      assert p[..i] == rs[..i];
      OtherDataSnoc(p, rs[n]);
      assert rs == p + [rs[n]];
      var op := OtherData(p);
      assert OtherData(rs)[..|op|] == op;
    }
  }

  /** Where record `i`'s entry lands in the full list: after the entries of the records before it. */
  function OtherPosition(rs: seq<NutrientRecord>, i: nat): nat
    requires i <= |rs|
  {
    |OtherData(rs[..i])|
  }

  /**
   * Every unclassified record with an amount has its entry in the full list at its
   * position, and in `other_nutrients` exactly when that position is below ten.
   */
  lemma OtherKept(rs: seq<NutrientRecord>, i: nat)
    requires i < |rs| && Unclassified(rs[i])
    ensures OtherPosition(rs, i) < |OtherData(rs)|
    ensures OtherData(rs)[OtherPosition(rs, i)] == DataOf(rs[i]).value
    ensures var o := Classified(rs).otherNutrients;
      && (OtherPosition(rs, i) < |o| <==> OtherPosition(rs, i) < OtherNutrientsCap)
      && (OtherPosition(rs, i) < |o| ==> o[OtherPosition(rs, i)] == DataOf(rs[i]).value)
  {
    assert rs[..i + 1] == rs[..i] + [rs[i]];
    OtherDataSnoc(rs[..i], rs[i]);
    OtherDataPrefix(rs, i + 1);
  }

  /** Entries keep the order of their records. */
  lemma OtherOrder(rs: seq<NutrientRecord>, i: nat, j: nat)
    requires i < j <= |rs| && Unclassified(rs[i])
    ensures OtherPosition(rs, i) < OtherPosition(rs, j)
  {
    var rj := rs[..j];
    assert rj[..i + 1] == rs[..i + 1];
    assert rs[..i + 1] == rs[..i] + [rs[i]];
    OtherDataSnoc(rs[..i], rs[i]);
    OtherDataPrefix(rj, i + 1);
  }

  lemma UnknownIdIsOther()
    ensures CategoryOf(Some(9999)) == Other
  {
    assert 9999 !in MacroNutrients && 9999 !in VitaminNutrients && 9999 !in MineralNutrients;
  }

  const ProteinRecord := NutrientRecord(Present(1003), Present("Protein"), Present("g"), Present("31"))
  const MysteryRecord := NutrientRecord(Present(9999), Present("Mystery"), Present("mg"), Present("5"))
  const ProteinData := NutrientData(Some("Protein"), "31", Some("g"))
  const MysteryData := NutrientData(Some("Mystery"), "5", Some("mg"))

  lemma ProteinStep()
    ensures ClassifyRecord(Nutrition([], [], [], []), ProteinRecord) == Nutrition([(Some("Protein"), ProteinData)], [], [], [])
  {
    assert CategoryOfRecord(ProteinRecord) == Macro;
  }

  lemma MysteryStep()
    ensures ClassifyRecord(Nutrition([(Some("Protein"), ProteinData)], [], [], []), MysteryRecord)
      == Nutrition([(Some("Protein"), ProteinData)], [], [], [MysteryData])
  {
    UnknownIdIsOther();
    assert CategoryOfRecord(MysteryRecord) == Other;
  }

  /** The example from the design notes: protein is a macronutrient, an unknown id is "other". */
  lemma ProteinAndMystery()
    ensures var rs := [
        NutrientRecord(Present(1003), Present("Protein"), Present("g"), Present("31")),
        NutrientRecord(Present(9999), Present("Mystery"), Present("mg"), Present("5"))];
      var n := Classified(rs);
      && n.macronutrients == [(Some("Protein"), NutrientData(Some("Protein"), "31", Some("g")))]
      && n.vitamins == [] && n.minerals == []
      && n.otherNutrients == [NutrientData(Some("Mystery"), "5", Some("mg"))]
  {
    var rs := [ProteinRecord, MysteryRecord];
    assert rs[..0] == [] && rs[..1] == [ProteinRecord] && rs[..2] == rs;
    assert Classified([]) == Nutrition([], [], [], []);
    ClassifiedStep(rs, 0);
    ProteinStep();
    assert Classified(rs[..1]) == Nutrition([(Some("Protein"), ProteinData)], [], [], []);
    ClassifiedStep(rs, 1);
    MysteryStep();
    assert Classified(rs) == Nutrition([(Some("Protein"), ProteinData)], [], [], [MysteryData]);
  }
}
