/**
 * The shared game-state store (`useStoryStore`): a record of fields, one
 * setter per field that replaces exactly that field, and `addHistory`, which
 * appends one line to the history.
 */
module StoryStoreModel {
  import opened Prelude

  /** Every field of the store at one moment. */
  datatype StoreState = StoreState(
    history: seq<string>,
    choice: string,
    loading: bool,
    error: Option<string>,
    playerHp: int,
    playerLevel: int,
    buffs: map<string, int>,
    story: string,
    choices: seq<string>,
    dangerLevel: string)

  /** The four combat buffs the store starts with, each at 0. */
  const InitialBuffs: map<string, int> := map["hp" := 0, "strength" := 0, "dexterity" := 0, "constitution" := 0]

  /** The store's initial state. */
  const Initial: StoreState :=
    StoreState([], "", false, None, 100, 1, InitialBuffs, "", [], "")

  class StoryStore {
    var history: seq<string>
    var choice: string
    var loading: bool
    var error: Option<string>
    var playerHp: int
    var playerLevel: int
    var buffs: map<string, int>
    var story: string
    var choices: seq<string>
    var dangerLevel: string

    /** The store's fields as one value. */
    function State(): StoreState
      reads this
    {
      StoreState(history, choice, loading, error, playerHp, playerLevel, buffs, story, choices, dangerLevel)
    }

    /** A fresh store: empty history, 100 HP, level 1, the four buffs at 0, nothing loading, no error. */
    constructor()
      ensures State() == Initial
    {
      history, choice, loading, error := [], "", false, None;
      playerHp, playerLevel, buffs := 100, 1, InitialBuffs;
      story, choices, dangerLevel := "", [], "";
    }

    method SetDangerLevel(dl: string)
      modifies this
      ensures State() == old(State()).(dangerLevel := dl)
    {
      dangerLevel := dl;
    }

    method SetStory(s: string)
      modifies this
      ensures State() == old(State()).(story := s)
    {
      story := s;
    }

    method SetChoices(c: seq<string>)
      modifies this
      ensures State() == old(State()).(choices := c)
    {
      choices := c;
    }

    /** One more line at the end of the history; earlier lines are untouched and there is no cap. */
    method AddHistory(line: string)
      modifies this
      ensures State() == old(State()).(history := old(history) + [line])
      ensures |history| == |old(history)| + 1 && history[..|old(history)|] == old(history)
      ensures history[|history| - 1] == line
    {
      history := history + [line];
    }

    method SetChoice(ch: string)
      modifies this
      ensures State() == old(State()).(choice := ch)
    {
      choice := ch;
    }

    method SetLoading(flag: bool)
      modifies this
      ensures State() == old(State()).(loading := flag)
    {
      loading := flag;
    }

    method SetError(msg: Option<string>)
      modifies this
      ensures State() == old(State()).(error := msg)
    {
      error := msg;
    }

    /** Stores the value as given: no clamping. */
    method SetPlayerHp(hp: int)
      modifies this
      ensures State() == old(State()).(playerHp := hp)
    {
      playerHp := hp;
    }

    method SetPlayerLevel(level: int)
      modifies this
      ensures State() == old(State()).(playerLevel := level)
    {
      playerLevel := level;
    }

    /**
     * `useStoryStore.setState` with the fields a restart writes: the history is
     * emptied, the error and loading flag cleared, HP, level and buffs replaced;
     * the other fields keep their values.
     */
    method ResetProgress(hp: int, level: int, b: map<string, int>)
      modifies this
      ensures State() == old(State()).(history := [], error := None, loading := false,
                                       playerHp := hp, playerLevel := level, buffs := b)
    {
      history, error, loading := [], None, false;
      playerHp, playerLevel, buffs := hp, level, b;
    }

    /** Replaces the whole buff map; nothing of the previous map is merged in. */
    method SetBuffs(b: map<string, int>)
      modifies this
      ensures State() == old(State()).(buffs := b)
    {
      buffs := b;
    }
  }
}
