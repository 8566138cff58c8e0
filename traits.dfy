/**
 * The race and class trait tables (`lib/traits.ts`): a fixed trait per known
 * race or class label, lookups that answer "none" for any other label, and the
 * one-line summary of a trait's bonuses.
 */
module Traits {
  import opened Prelude
  import opened JsText

  /** The five stats a trait may raise. */
  datatype Target = Hp | Energy | Strength | Dexterity | Constitution
  {
    /** The property name the bonus is written under. */
    function Key(): (k: string)
      ensures k == "hp" <==> this == Hp
      ensures k == "energy" <==> this == Energy
      ensures k == "strength" <==> this == Strength
      ensures k == "dexterity" <==> this == Dexterity
      ensures k == "constitution" <==> this == Constitution
    {
      match this
      case Hp => "hp"
      case Energy => "energy"
      case Strength => "strength"
      case Dexterity => "dexterity"
      case Constitution => "constitution"
    }
  }

  /** Different stats are written under different names. */
  lemma KeyInjective(a: Target, b: Target)
    ensures a.Key() == b.Key() ==> a == b
  {
  }

  /** One bonus of a trait: the stat and the amount it adds. */
  datatype Bonus = Bonus(target: Target, amount: int)

  /**
   * A trait: its name, its one-line summary and its bonuses in the order they
   * are written (the order `Object.entries` lists them in).
   */
  datatype Trait = Trait(name: string, summary: string, bonuses: seq<Bonus>)

  /** A bonus record: no stat twice, every amount positive. */
  predicate WellFormedBonuses(bonuses: seq<Bonus>)
  {
    && (forall i, j :: 0 <= i < j < |bonuses| ==> bonuses[i].target != bonuses[j].target)
    && (forall i :: 0 <= i < |bonuses| ==> bonuses[i].amount > 0)
  }

  /** The nine race labels, in table order. */
  const RaceNames: seq<string> := [
    "용족 (Dragonborn)", "드워프 (Dwarf)", "엘프 (Elf)", "노움 (Gnome)", "하프엘프 (Half-Elf)",
    "하프오크 (Half-Orc)", "하플링 (Halfling)", "인간 (Human)", "티플링 (Tiefling)"]

  /** The twelve class labels, in table order. */
  const ClassNames: seq<string> := [
    "야만전사 (Barbarian)", "바드 (Bard)", "클레릭 (Cleric)", "드루이드 (Druid)",
    "파이터 (Fighter)", "수도승 (Monk)", "팔라딘 (Paladin)", "레인저 (Ranger)",
    "로그 (Rogue)", "소서러 (Sorcerer)", "워락 (Warlock)", "위저드 (Wizard)"]

  /** `raceTraits` */
  const RaceTraits: map<string, Trait> := map[
    "용족 (Dragonborn)" := Trait("용의 분노", "타고난 용혈로 근력이 돋보이며 강인한 숨결을 품습니다.",
      [Bonus(Strength, 3), Bonus(Energy, 5)]),
    "드워프 (Dwarf)" := Trait("돌같은 인내", "두터운 체력과 인내심으로 긴 전투에도 버팁니다.",
      [Bonus(Hp, 12), Bonus(Constitution, 2)]),
    "엘프 (Elf)" := Trait("예리한 감각", "민첩한 반사신경과 기민한 스텝으로 위험을 피합니다.",
      [Bonus(Dexterity, 3), Bonus(Energy, 10)]),
    "노움 (Gnome)" := Trait("기민한 두뇌", "호기심 많은 정신력으로 마법 에너지를 비축합니다.",
      [Bonus(Energy, 12)]),
    "하프엘프 (Half-Elf)" := Trait("다재다능", "엘프와 인간의 장점을 고르게 이어받았습니다.",
      [Bonus(Hp, 6), Bonus(Energy, 6)]),
    "하프오크 (Half-Orc)" := Trait("잔혹한 힘", "거친 체격으로 강력한 일격을 가합니다.",
      [Bonus(Strength, 3), Bonus(Hp, 10)]),
    "하플링 (Halfling)" := Trait("날렵한 발놀림", "작은 체구로 민첩하게 움직이며 지구력을 아낍니다.",
      [Bonus(Dexterity, 2), Bonus(Energy, 6)]),
    "인간 (Human)" := Trait("적응력", "어떤 환경에서도 스스로를 빠르게 단련합니다.",
      [Bonus(Strength, 1), Bonus(Dexterity, 1), Bonus(Energy, 6)]),
    "티플링 (Tiefling)" := Trait("지옥의 회복력", "내재된 마력이 에너지를 끌어올립니다.",
      [Bonus(Energy, 14)])]

  /** `classTraits` */
  const ClassTraits: map<string, Trait> := map[
    "야만전사 (Barbarian)" := Trait("광전사의 분노", "분노를 폭발시켜 체력과 근력이 상승합니다.",
      [Bonus(Hp, 10), Bonus(Strength, 2)]),
    "바드 (Bard)" := Trait("격려의 멜로디", "노래로 정신을 북돋아 에너지를 회복합니다.",
      [Bonus(Energy, 8)]),
    "클레릭 (Cleric)" := Trait("신성한 축복", "신의 은총이 체력과 체질을 보강합니다.",
      [Bonus(Hp, 8), Bonus(Constitution, 2)]),
    "드루이드 (Druid)" := Trait("자연의 숨결", "자연과 교감하며 에너지를 안정적으로 끌어옵니다.",
      [Bonus(Energy, 10), Bonus(Dexterity, 1)]),
    "파이터 (Fighter)" := Trait("숙련된 전투술", "훈련된 전투 감각으로 균형 잡힌 능력을 보입니다.",
      [Bonus(Hp, 6), Bonus(Strength, 2), Bonus(Dexterity, 1)]),
    "수도승 (Monk)" := Trait("기의 흐름", "호흡을 다스려 에너지 소모를 줄입니다.",
      [Bonus(Energy, 9), Bonus(Dexterity, 2)]),
    "팔라딘 (Paladin)" := Trait("정의의 맹세", "신성한 힘이 체력을 지탱하고 공격을 보강합니다.",
      [Bonus(Hp, 8), Bonus(Strength, 2)]),
    "레인저 (Ranger)" := Trait("사냥꾼의 직감", "원거리 감각과 지구력이 향상됩니다.",
      [Bonus(Dexterity, 3), Bonus(Energy, 8)]),
    "로그 (Rogue)" := Trait("은신과 기민함", "재빠른 움직임으로 공격 기회를 노립니다.",
      [Bonus(Dexterity, 4), Bonus(Energy, 6)]),
    "소서러 (Sorcerer)" := Trait("선천적 마법", "타고난 마력이 에너지를 빠르게 모읍니다.",
      [Bonus(Energy, 15)]),
    "워락 (Warlock)" := Trait("계약의 힘", "계약으로 얻은 마력이 지구력을 보충합니다.",
      [Bonus(Energy, 12)]),
    "위저드 (Wizard)" := Trait("학자의 통찰", "연구로 쌓은 마력 축적이 에너지를 높입니다.",
      [Bonus(Energy, 15)])]

  /** `getRaceTrait`: the table entry, or none for a label the table does not have. */
  function GetRaceTrait(name: string): (r: Option<Trait>)
    ensures r.Some? <==> name in RaceNames
    ensures r.Some? ==> r.value == RaceTraits[name]
  {
    RaceTableKeys();
    if name in RaceTraits then Some(RaceTraits[name]) else None
  }

  /** `getClassTrait`: the table entry, or none for a label the table does not have. */
  function GetClassTrait(name: string): (r: Option<Trait>)
    ensures r.Some? <==> name in ClassNames
    ensures r.Some? ==> r.value == ClassTraits[name]
  {
    ClassTableKeys();
    if name in ClassTraits then Some(ClassTraits[name]) else None
  }

  /** The race table has exactly the nine labels, none repeated. */
  lemma RaceTableKeys()
    ensures |RaceNames| == 9
    ensures forall i, j :: 0 <= i < j < |RaceNames| ==> RaceNames[i] != RaceNames[j]
    ensures forall n :: n in RaceTraits <==> n in RaceNames
  {
  }

  /** The class table has exactly the twelve labels, none repeated. */
  lemma ClassTableKeys()
    ensures |ClassNames| == 12
    ensures forall i, j :: 0 <= i < j < |ClassNames| ==> ClassNames[i] != ClassNames[j]
    ensures forall n :: n in ClassTraits <==> n in ClassNames
  {
  }

  /** Every race trait raises each of its stats at most once and by a positive amount. */
  lemma RaceTraitsWellFormed()
    ensures forall n :: n in RaceTraits ==> WellFormedBonuses(RaceTraits[n].bonuses)
  {
  }

  /** Every class trait raises each of its stats at most once and by a positive amount. */
  lemma ClassTraitsWellFormed()
    ensures forall n :: n in ClassTraits ==> WellFormedBonuses(ClassTraits[n].bonuses)
  {
  }

  /** One `` `${k} +${v}` `` part. */
  function BonusText(b: Bonus): string
  {
    b.target.Key() + " +" + IntToString(b.amount)
  }

  /** The parts of a bonus record, one per bonus, in order. */
  function BonusTexts(bonuses: seq<Bonus>): (r: seq<string>)
    ensures |r| == |bonuses|
    ensures forall i :: 0 <= i < |r| ==> r[i] == BonusText(bonuses[i])
  {
    if bonuses == [] then [] else [BonusText(bonuses[0])] + BonusTexts(bonuses[1..])
  }

  /**
   * `formatTraitBonuses`: `""` for no trait and for a trait without bonuses,
   * otherwise each bonus as `key +value`, in order, joined by `", "`.
   */
  function FormatTraitBonuses(tr: Option<Trait>): (r: string)
    ensures tr.None? ==> r == ""
    ensures tr.Some? ==> r == Join(BonusTexts(tr.value.bonuses), ", ")
    ensures r == "" <==> tr.None? || tr.value.bonuses == []
  {
    if tr.None? then ""
    else
      var parts := BonusTexts(tr.value.bonuses);
      JoinEmpty(parts, ", ");
      if |parts| > 0 then Join(parts, ", ") else ""
  }

  /** A single bonus is formatted alone, without a separator. */
  lemma FormatSingleBonus(tr: Trait)
    requires |tr.bonuses| == 1
    ensures FormatTraitBonuses(Some(tr)) == BonusText(tr.bonuses[0])
  {
  }

  /** The gnome race's single bonus, written out. */
  lemma GnomeBonusText()
    ensures FormatTraitBonuses(GetRaceTrait("노움 (Gnome)")) == "energy +12"
  {
    var t := RaceTraits["노움 (Gnome)"];
    assert t.bonuses == [Bonus(Energy, 12)];
    assert IntToString(12) == "12" by {
      assert NatToString(12) == NatToString(1) + [DigitChar(2)];
    }
    FormatSingleBonus(t);
  }
}
