/**
 * The debug game page: the same turn flow as the main page, applied to the
 * page's own state and without a sanitiser. The body is taken as its declared
 * type says (every field optional); a payload with an error stops the turn
 * before anything but the error is recorded; `hp` buffs move HP and every
 * other target, `energy` included, goes into the buff map; the history gets
 * the whole story.
 */
module DebugPage {
  import opened Prelude
  import opened TurnRules
  import Combat

  const ChoicePrefix := "선택: "
  const StoryPrefix := "이야기: "
  const Undefined := "undefined"
  const StartLine := "시작"
  const NullBodyMessage := "Cannot read properties of null (reading 'error')"

  /** The debug page routes only `hp` to a scalar. */
  const DebugRouted: set<string> := {"hp"}

  const InitialBuffs: map<string, int> := map["hp" := 0, "strength" := 0, "dexterity" := 0, "constitution" := 0]

  /** The response body as declared: every field may be missing. */
  datatype DebugBody = DebugBody(
    story: Option<string>,
    choices: Option<seq<string>>,
    isCombat: Option<bool>,
    dangerLevel: Option<string>,
    enemyLevel: Option<int>,
    buffs: Option<seq<Buff>>,
    error: Option<string>)

  /** `fetch` or `res.json()` rejecting, or the parsed body (`None` for a JSON `null`). */
  datatype DebugFetch = Failed(message: string) | Received(body: Option<DebugBody>)

  datatype DebugState = DebugState(
    playerHp: int,
    playerLevel: int,
    buffs: map<string, int>,
    background: string,
    history: seq<string>,
    story: string,
    choices: seq<string>,
    isCombat: bool,
    pendingCombat: bool,
    dangerLevel: string,
    enemyLevel: int,
    loading: bool,
    error: string,
    hasStarted: bool,
    gameOver: bool)

  const Initial := DebugState(100, 1, InitialBuffs, "", [StartLine], "", [], false, false, "", 1, false, "", false, false)

  function OrElse<T>(o: Option<T>, d: T): T
  {
    if o.Some? then o.value else d
  }

  /** `` `이야기: ${data.story}` ``: a missing story prints as `undefined`. */
  function StoryLine(story: Option<string>): string
  {
    StoryPrefix + OrElse(story, Undefined)
  }

  /** True when `if (data.error)` throws. */
  predicate Rejects(body: DebugBody)
  {
    body.error.Some? && body.error.value != ""
  }

  /** What a turn without an error does: story, choices, combat flags, tier, enemy level, buffs and history. */
  function Applied(before: DebugState, choice: string, body: DebugBody): DebugState
  {
    var dl := OrElse(body.dangerLevel, "");
    var buffs := OrElse(body.buffs, []);
    before.(
      story := OrElse(body.story, ""),
      choices := OrElse(body.choices, []),
      pendingCombat := body.isCombat == Some(true),
      isCombat := false,
      dangerLevel := dl,
      enemyLevel := EnemyLevelFor(dl, before.playerLevel, OrElse(body.enemyLevel, before.playerLevel)),
      playerHp := before.playerHp + SumFor(buffs, "hp"),
      buffs := Merge(before.buffs, buffs, DebugRouted),
      history := before.history + [ChoicePrefix + choice, StoryLine(body.story)])
  }

  /** The debug page's `callStory(choice)`. */
  function DebugTurn(before: DebugState, choice: string, fetch: DebugFetch): DebugState
  {
    match fetch
    case Failed(m) => before.(loading := false, error := m)
    case Received(None) => before.(loading := false, error := NullBodyMessage)
    case Received(Some(body)) =>
      if Rejects(body) then before.(loading := false, error := body.error.value)
      else Applied(before.(loading := true, error := ""), choice, body).(loading := false)
  }

  /** `handleRestart`: the pending-combat and loading flags are left as they are. */
  function DebugRestart(before: DebugState): DebugState
  {
    DebugState(100, 1, InitialBuffs, "", [StartLine], "", [], false, before.pendingCombat, "", 1,
               before.loading, "", false, false)
  }

  /** `handleStart`: the background, the first turn with an empty choice, then the started flag. */
  function DebugStart(before: DebugState, background: string, fetch: DebugFetch): DebugState
  {
    DebugTurn(before.(background := background), "", fetch).(hasStarted := true)
  }

  /** `handleCombatEnd`: a defeat ends the game; a victory clears the pending flag and asks for the next turn. */
  function DebugCombatEnd(before: DebugState, result: Combat.Outcome, fetch: DebugFetch): DebugState
  {
    if result == Combat.Defeat then before.(isCombat := false, gameOver := true)
    else DebugTurn(before.(isCombat := false, pendingCombat := false), "", fetch)
  }

  /** `onVictory`: a functional update, one level up from the current level. */
  function DebugVictory(before: DebugState): DebugState
  {
    before.(playerLevel := before.playerLevel + 1)
  }

  /** Each victory adds one level to whatever the level is by then, so two victories add two. */
  lemma VictoriesAccumulate(before: DebugState)
    ensures DebugVictory(before).playerLevel == before.playerLevel + 1
    ensures DebugVictory(before).(playerLevel := before.playerLevel) == before
    ensures DebugVictory(DebugVictory(before)).playerLevel == before.playerLevel + 2
  {
  }

  /** Applying a body keeps the background and appends two lines to the history. */
  lemma AppliedExtendsHistory(before: DebugState, choice: string, body: DebugBody)
    ensures Applied(before, choice, body).background == before.background
    ensures Applied(before, choice, body).history == before.history + [ChoicePrefix + choice, StoryLine(body.story)]
  {
  }

  /** Starting marks the page started and keeps the background whatever the request does. */
  lemma StartKeepsBackground(before: DebugState, background: string, fetch: DebugFetch)
    ensures var after := DebugStart(before, background, fetch);
      && after.hasStarted && after.background == background
      && |after.history| >= |before.history|
      && after.history[..|before.history|] == before.history
  {
    var start := before.(background := background);
    var after := DebugStart(before, background, fetch);
    if fetch.Received? && fetch.body.Some? && !Rejects(fetch.body.value) {
      var body := fetch.body.value;
      AppliedExtendsHistory(start.(loading := true, error := ""), "", body);
      assert after.history[..|before.history|] == before.history;
    } else {
      assert after.history == before.history;
    }
  }

  /** A defeat changes only the two flags; a victory never leaves combat on or pending. */
  lemma CombatEndOutcomes(before: DebugState, result: Combat.Outcome, fetch: DebugFetch)
    ensures result == Combat.Defeat ==> DebugCombatEnd(before, result, fetch) == before.(isCombat := false, gameOver := true)
    ensures result == Combat.Victory ==> var after := DebugCombatEnd(before, result, fetch);
      && !after.isCombat && after.gameOver == before.gameOver
      && (after.pendingCombat ==> fetch.Received? && fetch.body.Some? && fetch.body.value.isCombat == Some(true))
  {
  }

  /** A payload carrying an error records only that error: no story, choice, buff, HP or history change. */
  lemma ErrorStopsTurn(before: DebugState, choice: string, body: DebugBody)
    requires Rejects(body)
    ensures var after := DebugTurn(before, choice, Received(Some(body)));
      && after == before.(loading := false, error := body.error.value)
      && after.error != ""
      && after.history == before.history && after.buffs == before.buffs && after.playerHp == before.playerHp
  {
  }

  /** Any failed request records a non-empty message when the body was `null`, and nothing else changes. */
  lemma FailureOnlyRecordsError(before: DebugState, choice: string, fetch: DebugFetch)
    requires fetch.Failed? || fetch.body.None?
    ensures var after := DebugTurn(before, choice, fetch);
      && after == before.(loading := false, error := after.error)
      && (fetch.Received? ==> after.error == NullBodyMessage)
  {
  }

  /**
   * Buff routing on the debug page: HP moves by the sum of the `hp` amounts,
   * unclamped; every other target, `energy` included, is added onto its map
   * value; the map's `hp` entry is untouched.
   */
  lemma DebugTurnBuffs(before: DebugState, choice: string, body: DebugBody)
    requires !Rejects(body)
    ensures var after := DebugTurn(before, choice, Received(Some(body)));
      var buffs := OrElse(body.buffs, []);
      && after.playerHp == before.playerHp + SumFor(buffs, "hp")
      && (forall k :: k != "hp" ==> Lookup(after.buffs, k) == Lookup(before.buffs, k) + SumFor(buffs, k))
      && ("hp" in after.buffs <==> "hp" in before.buffs)
      && ("hp" in before.buffs ==> after.buffs["hp"] == before.buffs["hp"])
  {
    var after := DebugTurn(before, choice, Received(Some(body)));
    var buffs := OrElse(body.buffs, []);
    forall k | k != "hp"
      ensures Lookup(after.buffs, k) == Lookup(before.buffs, k) + SumFor(buffs, k)
    {
      MergeAt(before.buffs, buffs, DebugRouted, k);
    }
    MergeAt(before.buffs, buffs, DebugRouted, "hp");
  }

  /**
   * A successful turn appends exactly the choice and the whole story, shows the
   * payload's choices unfiltered, and defers combat to the pending flag.
   */
  lemma DebugTurnRecords(before: DebugState, choice: string, body: DebugBody)
    requires !Rejects(body)
    ensures var after := DebugTurn(before, choice, Received(Some(body)));
      && after.history == before.history + [ChoicePrefix + choice, StoryPrefix + OrElse(body.story, Undefined)]
      && after.choices == (if body.choices.Some? then body.choices.value else [])
      && !after.isCombat && (after.pendingCombat <==> body.isCombat == Some(true))
      && after.error == "" && !after.loading
  {
  }

  /** Restarting a page that is neither loading nor about to fight gives back the initial page. */
  lemma RestartRestoresInitial(before: DebugState)
    requires !before.loading && !before.pendingCombat
    ensures DebugRestart(before) == Initial
    ensures DebugRestart(DebugRestart(before)) == DebugRestart(before)
  {
  }

  class DebugGamePage {
    var playerHp: int
    var playerLevel: int
    var buffs: map<string, int>
    var background: string
    var history: seq<string>
    var story: string
    var choices: seq<string>
    var isCombat: bool
    var pendingCombat: bool
    var dangerLevel: string
    var enemyLevel: int
    var loading: bool
    var error: string
    var hasStarted: bool
    var gameOver: bool

    function State(): DebugState
      reads this
    {
      DebugState(playerHp, playerLevel, buffs, background, history, story, choices, isCombat,
                 pendingCombat, dangerLevel, enemyLevel, loading, error, hasStarted, gameOver)
    }

    constructor()
      ensures State() == Initial
    {
      playerHp, playerLevel, buffs, background := 100, 1, InitialBuffs, "";
      history, story, choices := [StartLine], "", [];
      isCombat, pendingCombat, dangerLevel, enemyLevel := false, false, "", 1;
      loading, error, hasStarted, gameOver := false, "", false, false;
    }

    // One setter per state hook: each replaces its own value and nothing else.

    method SetPlayerHp(v: int)
      modifies this
      ensures State() == old(State()).(playerHp := v)
    {
      playerHp := v;
    }

    method SetPlayerLevel(v: int)
      modifies this
      ensures State() == old(State()).(playerLevel := v)
    {
      playerLevel := v;
    }

    method SetBuffs(v: map<string, int>)
      modifies this
      ensures State() == old(State()).(buffs := v)
    {
      buffs := v;
    }

    method SetBackground(v: string)
      modifies this
      ensures State() == old(State()).(background := v)
    {
      background := v;
    }

    method SetHistory(v: seq<string>)
      modifies this
      ensures State() == old(State()).(history := v)
    {
      history := v;
    }

    method SetStory(v: string)
      modifies this
      ensures State() == old(State()).(story := v)
    {
      story := v;
    }

    method SetChoices(v: seq<string>)
      modifies this
      ensures State() == old(State()).(choices := v)
    {
      choices := v;
    }

    method SetIsCombat(v: bool)
      modifies this
      ensures State() == old(State()).(isCombat := v)
    {
      isCombat := v;
    }

    method SetPendingCombat(v: bool)
      modifies this
      ensures State() == old(State()).(pendingCombat := v)
    {
      pendingCombat := v;
    }

    method SetDangerLevel(v: string)
      modifies this
      ensures State() == old(State()).(dangerLevel := v)
    {
      dangerLevel := v;
    }

    method SetEnemyLevel(v: int)
      modifies this
      ensures State() == old(State()).(enemyLevel := v)
    {
      enemyLevel := v;
    }

    method SetLoading(v: bool)
      modifies this
      ensures State() == old(State()).(loading := v)
    {
      loading := v;
    }

    method SetError(v: string)
      modifies this
      ensures State() == old(State()).(error := v)
    {
      error := v;
    }

    method SetHasStarted(v: bool)
      modifies this
      ensures State() == old(State()).(hasStarted := v)
    {
      hasStarted := v;
    }

    method SetGameOver(v: bool)
      modifies this
      ensures State() == old(State()).(gameOver := v)
    {
      gameOver := v;
    }

    /** The story part of a successful turn. */
    method Show(body: DebugBody)
      modifies this
      ensures State() == old(State()).(
        story := OrElse(body.story, ""),
        choices := OrElse(body.choices, []),
        pendingCombat := body.isCombat == Some(true),
        isCombat := false,
        dangerLevel := OrElse(body.dangerLevel, ""),
        enemyLevel := EnemyLevelFor(OrElse(body.dangerLevel, ""), old(playerLevel), OrElse(body.enemyLevel, old(playerLevel))))
    {
      SetStory(OrElse(body.story, ""));
      SetChoices(OrElse(body.choices, []));
      if body.isCombat == Some(true) {
        SetPendingCombat(true);
        SetIsCombat(false);
      } else {
        SetPendingCombat(false);
        SetIsCombat(false);
      }
      var dl := OrElse(body.dangerLevel, "");
      SetDangerLevel(dl);
      var base := playerLevel;
      var adj := OrElse(body.enemyLevel, base);
      adj := EnemyLevelFor(dl, base, adj);
      SetEnemyLevel(adj);
    }

    /** The `forEach` over the buffs: `hp` goes to HP, every other target into the map. */
    method ApplyBuffs(buffs: Option<seq<Buff>>)
      modifies this
      ensures State() == old(State()).(
        playerHp := old(playerHp) + SumFor(OrElse(buffs, []), "hp"),
        buffs := Merge(old(this.buffs), OrElse(buffs, []), DebugRouted))
    {
      if buffs.Some? {
        var bs := buffs.value;
        var hp, m := playerHp, this.buffs;
        for i := 0 to |bs|
          invariant hp == playerHp + SumFor(bs[..i], "hp")
          invariant m == Merge(this.buffs, bs[..i], DebugRouted)
        {
          var b := bs[i];
          assert bs[..i + 1][..i] == bs[..i];
          if b.target == "hp" {
            hp := hp + b.amount;
          } else {
            m := m[b.target := Lookup(m, b.target) + b.amount];
          }
        }
        assert bs[..|bs|] == bs;
        SetPlayerHp(hp);
        SetBuffs(m);
      }
    }

    method Apply(choice: string, body: DebugBody)
      modifies this
      ensures State() == Applied(old(State()), choice, body)
    {
      Show(body);
      ApplyBuffs(body.buffs);
      SetHistory(history + [ChoicePrefix + choice, StoryLine(body.story)]);
    }

    /** `callStory(choice)` */
    method CallStory(choice: string, fetch: DebugFetch)
      modifies this
      ensures State() == DebugTurn(old(State()), choice, fetch)
    {
      SetLoading(true);
      SetError("");
      match fetch
      case Failed(m) =>
        SetError(m);
        SetLoading(false);
        assert DebugTurn(old(State()), choice, fetch) == old(State()).(loading := false, error := m);
        return;
      case Received(None) =>
        SetError(NullBodyMessage);
        SetLoading(false);
        assert DebugTurn(old(State()), choice, fetch) == old(State()).(loading := false, error := NullBodyMessage);
        return;
      case Received(Some(body)) =>
        if Rejects(body) {
          SetError(body.error.value);
        } else {
          Apply(choice, body);
        }
      SetLoading(false);
    }

    /** `handleStart` */
    method Start(background: string, fetch: DebugFetch)
      modifies this
      ensures State() == DebugStart(old(State()), background, fetch)
    {
      SetBackground(background);
      CallStory("", fetch);
      SetHasStarted(true);
    }

    /** `onVictory` */
    method Victory()
      modifies this
      ensures State() == DebugVictory(old(State()))
    {
      SetPlayerLevel(playerLevel + 1);
    }

    /** `handleCombatEnd` */
    method HandleCombatEnd(result: Combat.Outcome, fetch: DebugFetch)
      modifies this
      ensures State() == DebugCombatEnd(old(State()), result, fetch)
    {
      SetIsCombat(false);
      if result == Combat.Defeat {
        SetGameOver(true);
      } else {
        SetPendingCombat(false);
        CallStory("", fetch);
      }
    }

    /** `handleRestart` */
    method Restart()
      modifies this
      ensures State() == DebugRestart(old(State()))
    {
      SetPlayerHp(100);
      SetPlayerLevel(1);
      SetBuffs(InitialBuffs);
      SetBackground("");
      SetHistory([StartLine]);
      SetStory("");
      SetChoices([]);
      SetDangerLevel("");
      SetEnemyLevel(1);
      SetIsCombat(false);
      SetError("");
      SetHasStarted(false);
      SetGameOver(false);
    }
  }
}
