/**
 * Translating the SRD race and class lists (`lib/srd.ts`): each listed item
 * becomes its Korean label when its slug (or its lower-cased name) is in the
 * table, and stays its English name otherwise.
 */
module Srd {
  import opened Prelude
  import opened JsText
  import Traits

  /** One entry of an SRD list response. */
  datatype ListItem = ListItem(index: string, name: string, url: string)

  /** `raceTranslations` */
  const RaceTranslations: map<string, string> := map[
    "dragonborn" := "용족 (Dragonborn)",
    "dwarf" := "드워프 (Dwarf)",
    "elf" := "엘프 (Elf)",
    "gnome" := "노움 (Gnome)",
    "half-elf" := "하프엘프 (Half-Elf)",
    "half-orc" := "하프오크 (Half-Orc)",
    "halfling" := "하플링 (Halfling)",
    "human" := "인간 (Human)",
    "tiefling" := "티플링 (Tiefling)"]

  /** `classTranslations` */
  const ClassTranslations: map<string, string> := map[
    "barbarian" := "야만전사 (Barbarian)",
    "bard" := "바드 (Bard)",
    "cleric" := "클레릭 (Cleric)",
    "druid" := "드루이드 (Druid)",
    "fighter" := "파이터 (Fighter)",
    "monk" := "수도승 (Monk)",
    "paladin" := "팔라딘 (Paladin)",
    "ranger" := "레인저 (Ranger)",
    "rogue" := "로그 (Rogue)",
    "sorcerer" := "소서러 (Sorcerer)",
    "warlock" := "워락 (Warlock)",
    "wizard" := "위저드 (Wizard)"]

  /** `table[key]` read as a truthy string: absent entries and `""` do not count. */
  predicate HasLabel(table: map<string, string>, key: string)
  {
    key in table && table[key] != ""
  }

  /**
   * `table[item.index] || table[item.name.toLowerCase()] || item.name`: the slug
   * is looked up first, then the lower-cased name, and the name itself is the
   * last resort.
   */
  function Translate(item: ListItem, table: map<string, string>): (r: string)
    ensures HasLabel(table, item.index) ==> r == table[item.index]
    ensures !HasLabel(table, item.index) && HasLabel(table, ToLower(item.name)) ==>
      r == table[ToLower(item.name)]
    ensures !HasLabel(table, item.index) && !HasLabel(table, ToLower(item.name)) ==> r == item.name
    ensures r == item.name || r in table.Values
  {
    if HasLabel(table, item.index) then table[item.index]
    else if HasLabel(table, ToLower(item.name)) then table[ToLower(item.name)]
    else item.name
  }

  /** `translateList`: one output per item, in order, each depending on that item alone. */
  function TranslateList(items: seq<ListItem>, table: map<string, string>): (r: seq<string>)
    ensures |r| == |items|
    ensures forall i :: 0 <= i < |items| ==> r[i] == Translate(items[i], table)
  {
    if items == [] then [] else [Translate(items[0], table)] + TranslateList(items[1..], table)
  }

  /** Translating a list item by item: two lists agree wherever their items agree. */
  lemma {:induction false} TranslateListPointwise(a: seq<ListItem>, b: seq<ListItem>, table: map<string, string>, i: nat)
    requires i < |a| && i < |b|
    requires a[i].index == b[i].index && a[i].name == b[i].name
    ensures TranslateList(a, table)[i] == TranslateList(b, table)[i]
  {
  }

  /** Translating two lists one after the other is translating their concatenation. */
  lemma {:induction false} TranslateListAppend(a: seq<ListItem>, b: seq<ListItem>, table: map<string, string>)
    ensures TranslateList(a + b, table) == TranslateList(a, table) + TranslateList(b, table)
    decreases |a|
  {
    if a != [] {
      assert (a + b)[1..] == a[1..] + b;
      TranslateListAppend(a[1..], b, table);
    }
  }

  /** Every race label has a race trait and every class label a class trait. */
  lemma TranslationsHaveTraits()
    ensures forall k :: k in RaceTranslations ==> Traits.GetRaceTrait(RaceTranslations[k]).Some?
    ensures forall k :: k in ClassTranslations ==> Traits.GetClassTrait(ClassTranslations[k]).Some?
  {
  }

  /** A translated race is either the untouched name or a label with a race trait. */
  lemma TranslatedRaceHasTrait(item: ListItem)
    ensures var r := Translate(item, RaceTranslations);
      r == item.name || Traits.GetRaceTrait(r).Some?
  {
    TranslationsHaveTraits();
  }

  /** A translated class is either the untouched name or a label with a class trait. */
  lemma TranslatedClassHasTrait(item: ListItem)
    ensures var r := Translate(item, ClassTranslations);
      r == item.name || Traits.GetClassTrait(r).Some?
  {
    TranslationsHaveTraits();
  }

  const ApiErrorPrefix := "SRD API error: "

  /**
   * `getRaces` / `getClasses` once the response is in: a non-OK status throws
   * an error naming it, otherwise the listed items are translated in order.
   */
  function GetList(ok: bool, status: nat, results: seq<ListItem>, table: map<string, string>): (r: Result<seq<string>>)
    ensures r.Err? <==> !ok
    ensures r.Err? ==> r.message == ApiErrorPrefix + NatToString(status)
    ensures r.Ok? ==> |r.value| == |results| && forall i :: 0 <= i < |results| ==> r.value[i] == Translate(results[i], table)
  {
    if !ok then Err(ApiErrorPrefix + NatToString(status)) else Ok(TranslateList(results, table))
  }

  /** Every race the list offers is either an untranslated name or a label with a race trait. */
  lemma RaceListHasTraits(ok: bool, status: nat, results: seq<ListItem>)
    ensures var r := GetList(ok, status, results, RaceTranslations);
      r.Ok? ==> forall i :: 0 <= i < |r.value| ==>
        r.value[i] == results[i].name || Traits.GetRaceTrait(r.value[i]).Some?
  {
    var r := GetList(ok, status, results, RaceTranslations);
    if r.Ok? {
      forall i | 0 <= i < |r.value|
        ensures r.value[i] == results[i].name || Traits.GetRaceTrait(r.value[i]).Some?
      {
        TranslatedRaceHasTrait(results[i]);
      }
    }
  }

  /** Every class the list offers is either an untranslated name or a label with a class trait. */
  lemma ClassListHasTraits(ok: bool, status: nat, results: seq<ListItem>)
    ensures var r := GetList(ok, status, results, ClassTranslations);
      r.Ok? ==> forall i :: 0 <= i < |r.value| ==>
        r.value[i] == results[i].name || Traits.GetClassTrait(r.value[i]).Some?
  {
    var r := GetList(ok, status, results, ClassTranslations);
    if r.Ok? {
      forall i | 0 <= i < |r.value|
        ensures r.value[i] == results[i].name || Traits.GetClassTrait(r.value[i]).Some?
      {
        TranslatedClassHasTrait(results[i]);
      }
    }
  }

  /** A capitalised name with no slug is still found through its lower-cased form. */
  lemma NameFallback(url: string)
    ensures Translate(ListItem("", "Elf", url), RaceTranslations) == "엘프 (Elf)"
  {
    assert ToLower("Elf") == "elf";
  }

  /** An item neither table knows keeps its name. */
  lemma UnknownKeepsName(url: string)
    ensures Translate(ListItem("artificer", "Artificer", url), ClassTranslations) == "Artificer"
  {
    assert ToLower("Artificer") == "artificer";
  }
}
