/**
 * The main game page: how one story turn is applied to the store and the
 * page's own state, plus the rest and restart actions.
 *
 * `fetch` is replaced by a `FetchOutcome` and `JSON.parse` by its result.
 * The callback that applies a turn adds bonuses to the HP and energy it saw
 * when it was created (`seenHp`, `seenEnergy`); `CallStory` is the ordinary
 * case, where those are the current values.
 */
module MainPage {
  import opened Prelude
  import opened JsText
  import opened Payload
  import opened TurnRules
  import opened StoryStoreModel
  import Combat

  const BlankStoryMessage := "새로운 이야기를 불러오는 데 문제가 발생했습니다. " + "안전하게 다음 선택으로 진행하세요."
  const UnreadableStory := "응답을 해석할 수 없었습니다. 잠시 숨을 고르고 다시 선택해 주세요."
  const ContinueChoice := "계속 진행"
  const PrepareChoice := "전투 준비"
  const EnemyApproaches := "적이 접근합니다. 전투 태세를 갖추세요!"
  const AutoAdvance := "자동 진행"
  const ChoicePrefix := "선택: "
  const SummaryPrefix := "요약: "
  const Ellipsis := "..."
  const FetchFailurePrefix := "Failed to fetch story: "
  const RestLine := "휴식: 체력과 에너지를 회복했습니다."
  const RestNarration := "\n\n당신은 잠시 숨을 고르며 휴식을 취했습니다."
  const RestChoice := "휴식"
  const StartLine := "시작"

  const PreviewLength := 200
  const EnergyCap := 120
  const RestCap := 120
  const RestHp := 8
  const RestEnergy := 25

  // ---------------------------------------------------------------------------
  // The response body after the client's sanitiser

  datatype ClientBody = ClientBody(
    story: string,
    choices: seq<string>,
    isCombat: bool,
    dangerLevel: string,
    enemyLevel: int,
    buffs: seq<Buff>,
    error: Option<string>)

  /** The buffs whose amount is a finite number, in order. */
  function FiniteBuffs(raw: seq<RawBuff>): (r: seq<Buff>)
    ensures |r| <= |raw|
    ensures forall b :: b in r <==> RawBuff(b.target, Finite(b.amount)) in raw
  {
    if raw == [] then []
    else
      var rest := FiniteBuffs(raw[..|raw| - 1]);
      var last := raw[|raw| - 1];
      assert raw == raw[..|raw| - 1] + [last];
      if last.amount.Finite? then rest + [Buff(last.target, last.amount.n)] else rest
  }

  /** Filtering one more entry appends what that entry gives. */
  lemma FiniteBuffsSnoc(items: seq<RawBuff>, x: RawBuff)
    ensures FiniteBuffs(items + [x]) == FiniteBuffs(items) + (if x.amount.Finite? then [Buff(x.target, x.amount.n)] else [])
  {
    var r := items + [x];
    assert r[..|r| - 1] == items && r[|r| - 1] == x;
  }

  /**
   * The filter keeps order and repeats: filtering a concatenation concatenates
   * the results.
   */
  lemma {:induction false} FiniteBuffsAppend(a: seq<RawBuff>, b: seq<RawBuff>)
    ensures FiniteBuffs(a + b) == FiniteBuffs(a) + FiniteBuffs(b)
    decreases |b|
  {
    if b == [] {
      assert a + b == a;
    } else {
      var init, x := b[..|b| - 1], b[|b| - 1];
      var kept := if x.amount.Finite? then [Buff(x.target, x.amount.n)] else [];
      assert a + b == (a + init) + [x] && b == init + [x];
      calc {
        FiniteBuffs(a + b);
        { FiniteBuffsSnoc(a + init, x); }
        FiniteBuffs(a + init) + kept;
        { FiniteBuffsAppend(a, init); }
        (FiniteBuffs(a) + FiniteBuffs(init)) + kept;
        FiniteBuffs(a) + (FiniteBuffs(init) + kept);
        { FiniteBuffsSnoc(init, x); }
        FiniteBuffs(a) + FiniteBuffs(b);
      }
    }
  }

  /** A single entry gives its buff when its amount is finite, and nothing otherwise. */
  lemma FiniteBuffsOne(x: RawBuff)
    ensures FiniteBuffs([x]) == if x.amount.Finite? then [Buff(x.target, x.amount.n)] else []
  {
    assert [x][..0] == [];
  }

  /** The trimmed story when it is a non-blank string, otherwise the fixed message. */
  function ClientStory(story: Value): (r: string)
    ensures !IsBlank(r)
    ensures story.Str? && !IsBlank(story.s) ==> r == Trim(story.s)
    ensures !(story.Str? && !IsBlank(story.s)) ==> r == BlankStoryMessage
  {
    var text := if story.Str? then story.s else "";
    TrimEmptyIffBlank(text);
    TrimHasNoOuterSpace(text);
    BlankStoryMessageNotBlank();
    if Trim(text) != "" then Trim(text) else BlankStoryMessage
  }

  /** The non-blank string choices, kept in combat too. */
  function ClientChoices(choices: Value): (r: seq<string>)
    ensures forall c :: c in r <==> choices.Arr? && Str(c) in choices.items && !IsBlank(c)
    ensures choices.Arr? ==> r == FilterChoices(choices.items)
  {
    if choices.Arr? then FilterChoices(choices.items) else []
  }

  /** The buffs with a string `target` and a finite numeric `amount`. */
  function ClientBuffs(buffs: Value): (r: seq<Buff>)
    ensures forall b :: b in r <==>
      buffs.Arr? && exists v :: v in buffs.items && AsBuff(v) == Some(RawBuff(b.target, Finite(b.amount)))
    ensures buffs.Arr? ==> r == FiniteBuffs(FilterBuffs(buffs.items))
  {
    if buffs.Arr? then FiniteBuffs(FilterBuffs(buffs.items)) else []
  }

  /**
   * `sanitizeResponse`: the story is trimmed and replaced by a fixed message when
   * blank; only non-blank string choices are kept, also in combat; buffs need a
   * string target and a numeric amount; the tier defaults to `""` and the enemy
   * level to the player's level. `ClientChoices` and `ClientBuffs` state which
   * choices and buffs are kept.
   */
  function ClientSanitize(raw: Value, playerLevel: int): (r: ClientBody)
    ensures !IsBlank(r.story)
    ensures r.story == ClientStory(Field(raw, "story"))
    ensures r.choices == ClientChoices(Field(raw, "choices"))
    ensures r.isCombat == Truthy(Field(raw, "isCombat"))
    ensures r.dangerLevel == (if Field(raw, "dangerLevel").Str? then Field(raw, "dangerLevel").s else "")
    ensures r.enemyLevel ==
      (if IsFiniteNumber(Field(raw, "enemyLevel")) then Field(raw, "enemyLevel").x.n else playerLevel)
    ensures r.buffs == ClientBuffs(Field(raw, "buffs"))
    ensures r.error == (if Field(raw, "error").Str? then Some(Field(raw, "error").s) else None)
  {
    var danger := Field(raw, "dangerLevel");
    var level := Field(raw, "enemyLevel");
    var error := Field(raw, "error");
    ClientBody(
      ClientStory(Field(raw, "story")),
      ClientChoices(Field(raw, "choices")),
      Truthy(Field(raw, "isCombat")),
      if danger.Str? then danger.s else "",
      if IsFiniteNumber(level) then level.x.n else playerLevel,
      ClientBuffs(Field(raw, "buffs")),
      if error.Str? then Some(error.s) else None)
  }

  lemma BlankStoryMessageNotBlank()
    ensures !IsBlank(BlankStoryMessage)
  {
    assert !IsJsSpace(BlankStoryMessage[0]);
  }

  /** The object the client sanitises instead when the body cannot be parsed. */
  const UnreadablePayload: Value :=
    Obj(map["story" := Str(UnreadableStory), "choices" := Arr([Str(ContinueChoice)]), "dangerLevel" := Str("low")])

  function ParseFallback(playerLevel: int): ClientBody
  {
    ClientSanitize(UnreadablePayload, playerLevel)
  }

  /** The fields of the parse-failure object, present and missing. */
  lemma UnreadablePayloadFields()
    ensures Field(UnreadablePayload, "story") == Str(UnreadableStory)
    ensures Field(UnreadablePayload, "choices") == Arr([Str(ContinueChoice)])
    ensures Field(UnreadablePayload, "dangerLevel") == Str("low")
    ensures Field(UnreadablePayload, "buffs") == Absent
    ensures Field(UnreadablePayload, "error") == Absent
    ensures Field(UnreadablePayload, "isCombat") == Absent
    ensures Field(UnreadablePayload, "enemyLevel") == Absent
  {
  }

  /** The parse-failure turn is always the same: one "continue" choice, tier `low`, the player's level. */
  lemma ParseFallbackContents(playerLevel: int)
    ensures ParseFallback(playerLevel) ==
      ClientBody(UnreadableStory, [ContinueChoice], false, "low", playerLevel, [], None)
  {
    UnreadableStoryIsTrimmed();
    assert FilterChoices([Str(ContinueChoice)]) == [ContinueChoice] by {
      assert !IsJsSpace(ContinueChoice[0]);
      assert [Str(ContinueChoice)][..0] == [];
    }
    UnreadablePayloadFields();
  }

  lemma UnreadableStoryIsTrimmed()
    ensures Trim(UnreadableStory) == UnreadableStory
  {
    assert !IsJsSpace(UnreadableStory[0]);
    assert TrimStart(UnreadableStory) == UnreadableStory;
    assert !IsJsSpace(UnreadableStory[|UnreadableStory| - 1]);
  }

  /**
   * The body a turn works with: `JSON.parse` throwing, or a payload whose fields
   * cannot be read (`null`), gives the parse-failure body.
   */
  function Decode(parsed: Result<Value>, playerLevel: int): ClientBody
  {
    if parsed.Err? || parsed.value.Null? || parsed.value.Absent? then ParseFallback(playerLevel)
    else ClientSanitize(parsed.value, playerLevel)
  }

  /** The choices shown: the payload's, else a single "prepare for combat" in combat, else none. */
  function NextChoices(choices: seq<string>, isCombat: bool): (r: seq<string>)
    ensures r != [] <==> choices != [] || isCombat
    ensures r == choices || (choices == [] && r == [PrepareChoice])
  {
    if |choices| > 0 then choices else if isCombat then [PrepareChoice] else []
  }

  /** The history line recording the player's choice; an empty choice reads "automatic". */
  function ChoiceLine(choice: string): string
  {
    ChoicePrefix + (if choice == "" then AutoAdvance else choice)
  }

  /** The history line summarising the story: its first 200 characters, marked when cut. */
  function SummaryLine(story: string): (r: string)
    ensures |story| <= PreviewLength ==> r == SummaryPrefix + story
    ensures |story| > PreviewLength ==> r == SummaryPrefix + story[..PreviewLength] + Ellipsis
    ensures |r| <= |SummaryPrefix| + PreviewLength + |Ellipsis|
  {
    SummaryPrefix + Prefix(story, PreviewLength) + (if |story| > PreviewLength then Ellipsis else "")
  }

  /** The message thrown for a non-OK status: the body's error if it has one, else one naming the status. */
  function FailureMessage(body: ClientBody, status: nat): (m: string)
    ensures m != ""
    ensures body.error.Some? && body.error.value != "" ==> m == body.error.value
    ensures !(body.error.Some? && body.error.value != "") ==> m == FetchFailurePrefix + NatToString(status)
  {
    if body.error.Some? && body.error.value != "" then body.error.value
    else FetchFailurePrefix + NatToString(status)
  }

  // ---------------------------------------------------------------------------
  // Page state and turn specifications

  /** `fetch` rejecting, or the response's status, OK flag and the parsed text. */
  datatype FetchOutcome =
    | NetworkFailure(message: string)
    | Received(ok: bool, status: nat, parsed: Result<Value>)

  predicate Succeeds(outcome: FetchOutcome)
  {
    outcome.Received? && outcome.ok
  }

  /** The page's own state, next to the store. */
  datatype PageState = PageState(
    energy: int,
    race: string,
    className: string,
    background: string,
    isCombat: bool,
    pendingCombat: bool,
    pendingMessage: string,
    enemyLevel: int,
    gameOver: bool)

  const InitialPage := PageState(100, "", "", "", false, false, "", 1, false)

  /** Everything a turn can change: the store and the page. */
  datatype Screen = Screen(store: StoreState, page: PageState)

  /** The body a successful outcome delivers at a given player level. */
  function BodyOf(outcome: FetchOutcome, playerLevel: int): ClientBody
    requires outcome.Received?
  {
    Decode(outcome.parsed, playerLevel)
  }

  /** The story part of a successful turn: error, story, choices, tier, combat flags and enemy level. */
  function ShowBody(before: Screen, body: ClientBody): Screen
  {
    Screen(
      before.store.(
        error := if body.error.Some? && body.error.value != "" then body.error else before.store.error,
        story := body.story,
        choices := NextChoices(body.choices, body.isCombat),
        dangerLevel := body.dangerLevel),
      before.page.(
        pendingMessage := if body.isCombat then EnemyApproaches else "",
        pendingCombat := body.isCombat,
        isCombat := false,
        enemyLevel := EnemyLevelFor(body.dangerLevel, before.store.playerLevel, body.enemyLevel)))
  }

  /** The buff part of a successful turn. */
  function ApplyBuffs(before: Screen, buffs: seq<Buff>, seenHp: int, seenEnergy: int): Screen
  {
    var hpBonus := SumFor(buffs, "hp");
    var energyBonus := SumFor(buffs, "energy");
    Screen(
      before.store.(
        buffs := Merge(before.store.buffs, buffs, PageRouted),
        playerHp := if hpBonus != 0 then seenHp + hpBonus else before.store.playerHp),
      before.page.(
        energy := if energyBonus != 0 then Clamp(seenEnergy + energyBonus, 0, EnergyCap) else before.page.energy))
  }

  /** The history part of a successful turn: the choice line and the summary line. */
  function RecordTurn(before: Screen, choice: string, story: string): Screen
  {
    before.(store := before.store.(history := before.store.history + [ChoiceLine(choice), SummaryLine(story)]))
  }

  /** `callStory(choice)`, as created when HP and energy were `seenHp` and `seenEnergy`. */
  function TurnResult(before: Screen, choice: string, outcome: FetchOutcome, seenHp: int, seenEnergy: int): Screen
  {
    var s := before.store;
    match outcome
    case NetworkFailure(m) => Screen(s.(loading := false, error := Some(m)), before.page)
    case Received(ok, status, parsed) =>
      var body := Decode(parsed, s.playerLevel);
      if !ok then
        Screen(s.(loading := false, error := Some(FailureMessage(body, status))), before.page)
      else
        var started := Screen(s.(loading := true, error := Some("")), before.page);
        var done := RecordTurn(ApplyBuffs(ShowBody(started, body), body.buffs, seenHp, seenEnergy), choice, body.story);
        done.(store := done.store.(loading := false))
  }

  /** Rest is refused while loading, while combat is pending and during combat. */
  predicate RestBlocked(before: Screen)
  {
    before.store.loading || before.page.pendingCombat || before.page.isCombat
  }

  /** The first part of `handleRest`: recover HP and energy, record it and extend the story. */
  function RestResult(before: Screen): Screen
  {
    if RestBlocked(before) then before
    else
      Screen(
        before.store.(
          playerHp := Min(RestCap, before.store.playerHp + RestHp),
          history := before.store.history + [RestLine],
          story := Trim(before.store.story + RestNarration)),
        before.page.(energy := Min(EnergyCap, before.page.energy + RestEnergy)))
  }

  /** `handleRest`: the rest, then a turn for the choice "rest" created before the rest was applied. */
  function HandleRestResult(before: Screen, outcome: FetchOutcome): Screen
  {
    if RestBlocked(before) then before
    else TurnResult(RestResult(before), RestChoice, outcome, before.store.playerHp, before.page.energy)
  }

  /** The five combat buffs a restart sets, each at 0. */
  const RestartBuffs: map<string, int> :=
    map["hp" := 0, "strength" := 0, "dexterity" := 0, "constitution" := 0, "energy" := 0]

  /** `handleRestart`: everything back to a new game; the pending-combat flag and message are not reset. */
  function RestartResult(before: Screen): Screen
  {
    Screen(
      StoreState([], before.store.choice, false, None, 100, 1, RestartBuffs, "", [], ""),
      before.page.(energy := 100, race := "", className := "", background := "",
                   enemyLevel := 1, isCombat := false, gameOver := false))
  }

  // ---------------------------------------------------------------------------
  // What the turn specifications promise

  /** A failed turn changes nothing but the error and the loading flag; a non-OK status always leaves a message. */
  lemma FailedTurnOnlyRecordsError(before: Screen, choice: string, outcome: FetchOutcome, seenHp: int, seenEnergy: int)
    requires !Succeeds(outcome)
    ensures var after := TurnResult(before, choice, outcome, seenHp, seenEnergy);
      && after.page == before.page
      && after.store == before.store.(loading := false, error := after.store.error)
      && after.store.error.Some?
      && (outcome.Received? ==> after.store.error.value != "")
      && (outcome.NetworkFailure? ==> after.store.error.value == outcome.message)
  {
  }

  /**
   * A successful turn appends exactly two lines: the choice (or "automatic") and
   * the story's first 200 characters, with an ellipsis exactly when it was cut.
   */
  lemma SuccessfulTurnHistory(before: Screen, choice: string, outcome: FetchOutcome, seenHp: int, seenEnergy: int)
    requires Succeeds(outcome)
    ensures var after := TurnResult(before, choice, outcome, seenHp, seenEnergy);
      var old_ := before.store.history;
      var story := BodyOf(outcome, before.store.playerLevel).story;
      && |after.store.history| == |old_| + 2
      && after.store.history[..|old_|] == old_
      && after.store.history[|old_|] == ChoicePrefix + (if choice == "" then AutoAdvance else choice)
      && after.store.history[|old_| + 1] ==
           SummaryPrefix + Prefix(story, PreviewLength) + (if |story| > PreviewLength then Ellipsis else "")
      && after.store.story == story && !IsBlank(story)
  {
    var after := TurnResult(before, choice, outcome, seenHp, seenEnergy);
    assert after.store.history == before.store.history + [ChoiceLine(choice), SummaryLine(BodyOf(outcome, before.store.playerLevel).story)];
  }

  /**
   * Buff routing on a successful turn: `hp` amounts move HP (unclamped, from the
   * value the callback saw) only when they sum to non-zero, `energy` amounts set
   * energy to the seen value plus their sum, clamped to [0, 120], only when they
   * sum to non-zero, and every other target
   * is added onto its previous buff value; the map's own `hp` and `energy`
   * entries are untouched.
   */
  lemma SuccessfulTurnBuffs(before: Screen, choice: string, outcome: FetchOutcome, seenHp: int, seenEnergy: int)
    requires Succeeds(outcome)
    ensures var after := TurnResult(before, choice, outcome, seenHp, seenEnergy);
      var buffs := BodyOf(outcome, before.store.playerLevel).buffs;
      && (SumFor(buffs, "hp") == 0 ==> after.store.playerHp == before.store.playerHp)
      && (SumFor(buffs, "hp") != 0 ==> after.store.playerHp == seenHp + SumFor(buffs, "hp"))
      && (SumFor(buffs, "energy") == 0 ==> after.page.energy == before.page.energy)
      && (SumFor(buffs, "energy") != 0 ==>
            after.page.energy == Clamp(seenEnergy + SumFor(buffs, "energy"), 0, EnergyCap))
      && (forall k :: k !in PageRouted ==>
            Lookup(after.store.buffs, k) == Lookup(before.store.buffs, k) + SumFor(buffs, k))
      && (forall k :: k in PageRouted ==>
            (k in after.store.buffs <==> k in before.store.buffs) &&
            (k in before.store.buffs ==> after.store.buffs[k] == before.store.buffs[k]))
  {
    var after := TurnResult(before, choice, outcome, seenHp, seenEnergy);
    var buffs := BodyOf(outcome, before.store.playerLevel).buffs;
    assert after.store.buffs == Merge(before.store.buffs, buffs, PageRouted);
    forall k
      ensures k !in PageRouted ==>
        Lookup(after.store.buffs, k) == Lookup(before.store.buffs, k) + SumFor(buffs, k)
      ensures k in PageRouted ==>
        (k in after.store.buffs <==> k in before.store.buffs) &&
        (k in before.store.buffs ==> after.store.buffs[k] == before.store.buffs[k])
    {
      MergeAt(before.store.buffs, buffs, PageRouted, k);
    }
  }

  /**
   * A successful turn never starts combat directly: it sets the pending flag,
   * with a notice, and there is then always a choice to press; the enemy level
   * follows the tier.
   */
  lemma SuccessfulTurnCombat(before: Screen, choice: string, outcome: FetchOutcome, seenHp: int, seenEnergy: int)
    requires Succeeds(outcome)
    ensures var after := TurnResult(before, choice, outcome, seenHp, seenEnergy);
      var body := BodyOf(outcome, before.store.playerLevel);
      && !after.page.isCombat
      && after.page.pendingCombat == body.isCombat
      && (after.page.pendingCombat <==> after.page.pendingMessage != "")
      && (after.page.pendingCombat ==> after.store.choices != [])
      && after.page.enemyLevel == EnemyLevelFor(body.dangerLevel, before.store.playerLevel, body.enemyLevel)
      && !after.store.loading
  {
  }

  /**
   * Resting caps HP and energy at 120 rather than adding past it, appends one
   * line, and leaves a non-blank story ending in the rest narration's words.
   */
  lemma RestRecovers(before: Screen)
    requires !RestBlocked(before)
    ensures var after := RestResult(before);
      && after.store.playerHp == (if before.store.playerHp + RestHp <= RestCap then before.store.playerHp + RestHp else RestCap)
      && after.page.energy == (if before.page.energy + RestEnergy <= EnergyCap then before.page.energy + RestEnergy else EnergyCap)
      && after.store.history == before.store.history + [RestLine]
      && !IsBlank(after.store.story)
      && after.store.buffs == before.store.buffs && after.page.isCombat == before.page.isCombat
  {
    var text := before.store.story + RestNarration;
    assert text[|text| - 1] == '.' && !IsJsSpace(text[|text| - 1]);
    TrimEmptyIffBlank(text);
    TrimHasNoOuterSpace(text);
  }

  /** A blocked rest changes nothing and sends no turn. */
  lemma BlockedRestIsNoop(before: Screen, outcome: FetchOutcome)
    requires RestBlocked(before)
    ensures HandleRestResult(before, outcome) == before
  {
  }

  /**
   * The turn sent by a rest was created before the rest was applied: when it
   * carries a non-zero HP bonus, HP ends at the pre-rest value plus that bonus
   * and the rest's recovery is lost.
   */
  lemma RestRecoveryLostToHpBonus(before: Screen, outcome: FetchOutcome)
    requires !RestBlocked(before) && Succeeds(outcome)
    requires SumFor(BodyOf(outcome, before.store.playerLevel).buffs, "hp") != 0
    ensures HandleRestResult(before, outcome).store.playerHp ==
      before.store.playerHp + SumFor(BodyOf(outcome, before.store.playerLevel).buffs, "hp")
  {
  }

  /** A rest whose turn adds its bonuses to the HP and energy the rest left. */
  function HandleRestFresh(before: Screen, outcome: FetchOutcome): Screen
  {
    if RestBlocked(before) then before
    else
      var rested := RestResult(before);
      TurnResult(rested, RestChoice, outcome, rested.store.playerHp, rested.page.energy)
  }

  /** With the values read after the rest, an HP bonus lands on top of the recovered HP. */
  lemma RestRecoveryKeptWithFreshValues(before: Screen, outcome: FetchOutcome)
    requires !RestBlocked(before) && Succeeds(outcome)
    ensures var bonus := SumFor(BodyOf(outcome, before.store.playerLevel).buffs, "hp");
      HandleRestFresh(before, outcome).store.playerHp == Min(RestCap, before.store.playerHp + RestHp) + bonus
  {
  }

  /** Restarting twice is restarting once, and the result depends only on the kept fields. */
  lemma RestartIsIdempotent(before: Screen)
    ensures RestartResult(RestartResult(before)) == RestartResult(before)
    ensures RestartResult(before).store.history == [] && RestartResult(before).store.playerHp == 100
    ensures RestartResult(before).page.pendingCombat == before.page.pendingCombat
  {
  }

  /** The page counts as started once the store's history has a line. */
  predicate HasStarted(s: Screen)
  {
    |s.store.history| > 0
  }

  /**
   * `handleStart` as written: the store defines no `setRace`, so calling it
   * throws right after the background is set and nothing else happens.
   */
  function StartAsWritten(before: Screen, background: string): Screen
  {
    before.(page := before.page.(background := background))
  }

  /** Under the handler as written, pressing start on a fresh page leaves it unstarted. */
  lemma StartAsWrittenNeverStarts(before: Screen, background: string)
    requires !HasStarted(before)
    ensures !HasStarted(StartAsWritten(before, background))
    ensures StartAsWritten(before, background).store == before.store
  {
  }

  /**
   * `handleStart` with the store setters it means: the background, full energy,
   * the "start" line, then the first turn, created before those changes.
   */
  function StartResult(before: Screen, background: string, outcome: FetchOutcome): Screen
  {
    var prepared := Screen(before.store.(history := before.store.history + [StartLine]),
                           before.page.(background := background, energy := 100));
    TurnResult(prepared, "", outcome, before.store.playerHp, before.page.energy)
  }

  /** Starting always starts the game: the "start" line follows the old history and the background is kept. */
  lemma StartBeginsGame(before: Screen, background: string, outcome: FetchOutcome)
    ensures var after := StartResult(before, background, outcome);
      && HasStarted(after)
      && |after.store.history| > |before.store.history|
      && after.store.history[..|before.store.history| + 1] == before.store.history + [StartLine]
      && after.page.background == background
  {
    var prepared := Screen(before.store.(history := before.store.history + [StartLine]),
                           before.page.(background := background, energy := 100));
    var n := |prepared.store.history|;
    if Succeeds(outcome) {
      SuccessfulTurnHistory(prepared, "", outcome, before.store.playerHp, before.page.energy);
      var h := StartResult(before, background, outcome).store.history;
      assert h[..n] == prepared.store.history;
      assert h[..|before.store.history| + 1] == h[..n];
    } else {
      FailedTurnOnlyRecordsError(prepared, "", outcome, before.store.playerHp, before.page.energy);
    }
  }

  /** The effect on `pendingCombat`: once its timer fires, the pending fight begins. */
  function BeginCombat(before: Screen): Screen
  {
    if before.page.pendingCombat then before.(page := before.page.(isCombat := true, pendingCombat := false))
    else before
  }

  /** A successful turn is followed by combat exactly when its payload asked for it. */
  lemma CombatFollowsTurn(before: Screen, choice: string, outcome: FetchOutcome, seenHp: int, seenEnergy: int)
    requires Succeeds(outcome)
    ensures var after := BeginCombat(TurnResult(before, choice, outcome, seenHp, seenEnergy));
      && after.page.isCombat == BodyOf(outcome, before.store.playerLevel).isCombat
      && !after.page.pendingCombat
      && after.store == TurnResult(before, choice, outcome, seenHp, seenEnergy).store
  {
    SuccessfulTurnCombat(before, choice, outcome, seenHp, seenEnergy);
  }

  /** `onVictory`: the store's level becomes the level the page was rendered with, plus one. */
  function VictoryResult(before: Screen, seenLevel: int): Screen
  {
    before.(store := before.store.(playerLevel := seenLevel + 1))
  }

  /**
   * A victory raises the level by exactly one and changes nothing else; a
   * second call from the same render sets the same level again rather than
   * raising it twice.
   */
  lemma VictoryLevelsUp(before: Screen)
    ensures var after := VictoryResult(before, before.store.playerLevel);
      && after.store.playerLevel == before.store.playerLevel + 1
      && after.page == before.page
      && after.store.(playerLevel := before.store.playerLevel) == before.store
    ensures var once := VictoryResult(before, before.store.playerLevel);
      VictoryResult(once, before.store.playerLevel) == once
  {
  }

  // ---------------------------------------------------------------------------
  // The page

  class GamePage {
    const store: StoryStore
    var energy: int
    var race: string
    var className: string
    var background: string
    var isCombat: bool
    var pendingCombat: bool
    var pendingMessage: string
    var enemyLevel: int
    var gameOver: bool

    function Page(): PageState
      reads this
    {
      PageState(energy, race, className, background, isCombat, pendingCombat, pendingMessage, enemyLevel, gameOver)
    }

    function Now(): Screen
      reads this, store
    {
      Screen(store.State(), Page())
    }

    /** A page over the given store, with full energy and no combat. */
    constructor(store: StoryStore)
      ensures this.store == store
      ensures Page() == InitialPage
    {
      this.store := store;
      energy, race, className, background := 100, "", "", "";
      isCombat, pendingCombat, pendingMessage := false, false, "";
      enemyLevel, gameOver := 1, false;
    }

    method Show(body: ClientBody)
      modifies this, store
      ensures Now() == ShowBody(old(Now()), body)
    {
      var level := store.playerLevel;
      if body.error.Some? && body.error.value != "" {
        store.SetError(body.error);
      }
      store.SetStory(body.story);
      store.SetChoices(NextChoices(body.choices, body.isCombat));
      if body.isCombat {
        pendingMessage := EnemyApproaches;
        pendingCombat := true;
        isCombat := false;
      } else {
        pendingCombat := false;
        pendingMessage := "";
        isCombat := false;
      }
      store.SetDangerLevel(body.dangerLevel);
      enemyLevel := EnemyLevelFor(body.dangerLevel, level, body.enemyLevel);
    }

    method Route(buffs: seq<Buff>, seenHp: int, seenEnergy: int)
      modifies this, store
      ensures Now() == ApplyBuffs(old(Now()), buffs, seenHp, seenEnergy)
    {
      var hpBonus, energyBonus, updated := RouteBuffs(buffs, store.buffs);
      if hpBonus != 0 {
        store.SetPlayerHp(seenHp + hpBonus);
      }
      if energyBonus != 0 {
        energy := Clamp(seenEnergy + energyBonus, 0, EnergyCap);
      }
      store.SetBuffs(updated);
    }

    method Record(choice: string, story: string)
      modifies store
      ensures Now() == RecordTurn(old(Now()), choice, story)
    {
      store.AddHistory(ChoiceLine(choice));
      store.AddHistory(SummaryLine(story));
    }

    /** `callStory`, with the HP and energy its closure captured. */
    method CallStoryFrom(seenHp: int, seenEnergy: int, choice: string, outcome: FetchOutcome)
      modifies this, store
      ensures Now() == TurnResult(old(Now()), choice, outcome, seenHp, seenEnergy)
    {
      var level := store.playerLevel;
      store.SetLoading(true);
      store.SetError(Some(""));
      match outcome
      case NetworkFailure(m) =>
        store.SetError(Some(m));
        store.SetLoading(false);
        assert TurnResult(old(Now()), choice, outcome, seenHp, seenEnergy) == Screen(old(store.State()).(loading := false, error := Some(m)), old(Page()));
        return;
      case Received(ok, status, parsed) =>
        var body := Decode(parsed, level);
        if !ok {
          store.SetError(Some(FailureMessage(body, status)));
        } else {
          Show(body);
          Route(body.buffs, seenHp, seenEnergy);
          Record(choice, body.story);
        }
      store.SetLoading(false);
    }

    /** `callStory` on the current state. */
    method CallStory(choice: string, outcome: FetchOutcome)
      modifies this, store
      ensures Now() == TurnResult(old(Now()), choice, outcome, old(store.playerHp), old(energy))
    {
      CallStoryFrom(store.playerHp, energy, choice, outcome);
    }

    /** The recovery step of `handleRest`; `started` says whether it was allowed. */
    method Rest() returns (started: bool)
      modifies this, store
      ensures started == !RestBlocked(old(Now()))
      ensures Now() == RestResult(old(Now()))
    {
      if store.loading || pendingCombat || isCombat {
        return false;
      }
      var recoveredHp := Min(RestCap, store.playerHp + RestHp);
      var recoveredEnergy := Min(EnergyCap, energy + RestEnergy);
      store.SetPlayerHp(recoveredHp);
      energy := recoveredEnergy;
      store.AddHistory(RestLine);
      store.SetStory(Trim(store.story + RestNarration));
      started := true;
    }

    /** `handleRest`: rest, then ask for the next turn with the choice "rest". */
    method HandleRest(outcome: FetchOutcome)
      modifies this, store
      ensures Now() == HandleRestResult(old(Now()), outcome)
    {
      var seenHp, seenEnergy := store.playerHp, energy;
      var started := Rest();
      if started {
        CallStoryFrom(seenHp, seenEnergy, RestChoice, outcome);
      }
    }

    /** `handleRestart` */
    method Restart()
      modifies this, store
      ensures Now() == RestartResult(old(Now()))
    {
      RestartStore();
      energy := 100;
      race, className, background := "", "", "";
      enemyLevel, isCombat, gameOver := 1, false, false;
    }

    /** The store's part of a restart: the setters, then one merged `setState`. */
    method RestartStore()
      modifies store
      ensures store.State() == RestartResult(old(Now())).store
    {
      store.SetPlayerHp(100);
      store.SetPlayerLevel(1);
      store.SetBuffs(RestartBuffs);
      store.SetStory("");
      store.SetChoices([]);
      store.SetDangerLevel("");
      store.ResetProgress(100, 1, RestartBuffs);
    }

    /** `handleStart`, with the store setters it means. */
    method Start(background: string, outcome: FetchOutcome)
      modifies this, store
      ensures Now() == StartResult(old(Now()), background, outcome)
    {
      var seenHp, seenEnergy := store.playerHp, energy;
      this.background := background;
      energy := 100;
      store.AddHistory(StartLine);
      CallStoryFrom(seenHp, seenEnergy, "", outcome);
    }

    /** The pending-combat timer firing. */
    method BeginPendingCombat()
      modifies this
      ensures Now() == BeginCombat(old(Now()))
    {
      if pendingCombat {
        isCombat := true;
        pendingCombat := false;
      }
    }

    /** `onVictory`, with the level its closure captured. */
    method Victory(seenLevel: int)
      modifies store
      ensures Now() == VictoryResult(old(Now()), seenLevel)
    {
      store.SetPlayerLevel(seenLevel + 1);
    }

    /** `handleCombatEnd`: a defeat ends the game; a victory asks for the next turn. */
    method HandleCombatEnd(result: Combat.Outcome, outcome: FetchOutcome)
      modifies this, store
      ensures result == Combat.Defeat ==>
        Now() == old(Now()).(page := old(Page()).(isCombat := false, gameOver := true))
      ensures result == Combat.Victory ==>
        Now() == TurnResult(old(Now()).(page := old(Page()).(isCombat := false, pendingCombat := false)),
                            "", outcome, old(store.playerHp), old(energy))
    {
      isCombat := false;
      if result == Combat.Defeat {
        gameOver := true;
      } else {
        pendingCombat := false;
        CallStory("", outcome);
      }
    }
  }
}
