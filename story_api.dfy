/**
 * The story endpoint's own logic: trimming the background and the history to
 * a character budget, re-limiting the history when the prompt is too long,
 * taking the `{ ... }` slice out of the generated text, and turning the parsed
 * payload, or any failure, into a fully defaulted response.
 *
 * The generator call and `JSON.parse` are inputs. The fixed prompt text is
 * represented only by its length (`overhead`).
 */
module StoryApi {
  import opened Prelude
  import opened JsText
  import opened Payload

  const BackgroundLimit := 800
  const HistoryLimit := 1800
  const MinHistoryLimit := 400
  const PromptLimit := 4000

  const HistoryNote := "(최근 대화 일부만 포함됨 — 누락된 맥락은 직전 흐름을 유지하며 자연스럽게 이어 쓰세요.)\n"
  const NoJsonMessage := "AI 응답에 JSON 포맷이 없습니다."
  const NullPayloadMessage := "Cannot read properties of null (reading 'story')"
  const FailedStory := "새로운 이야기를 불러오는 데 실패했습니다. 호흡을 가다듬고 다시 시도하세요."
  const FallbackStory := "이야기를 가져오는 동안 문제가 발생했습니다. 안전한 경로로 계속 진행하세요."
  const FallbackChoices := ["숨 고르기", "조심스럽게 계속 이동"]

  // ---------------------------------------------------------------------------
  // Character budgets

  /** `truncateTail`: the text itself when it fits, otherwise its last `maxLength` characters. */
  function TruncateTail(text: string, maxLength: nat): (r: string)
    ensures |r| == Min(|text|, maxLength)
    ensures r == text[|text| - |r|..]
    ensures |text| <= maxLength ==> r == text
  {
    if |text| > maxLength then text[|text| - maxLength..] else text
  }

  /** The background line: the trimmed background cut to its last 800 characters, or nothing. */
  function TrimmedBackground(background: Option<string>): (r: string)
    ensures background.None? || IsBlank(background.value) ==> r == ""
    ensures background.Some? && !IsBlank(background.value) ==>
      var t := Trim(background.value); |r| == Min(|t|, BackgroundLimit) && r == t[|t| - |r|..]
  {
    if background.Some? && Trim(background.value) != "" then
      TruncateTail(Trim(background.value), BackgroundLimit)
    else
      TrimEmptyIffBlank(if background.Some? then background.value else "");
      ""
  }

  /** `entries.join("\n").length` */
  function HistoryLength(entries: seq<string>): nat
  {
    JoinedLength(entries, "\n")
  }

  /** The last `k` entries. */
  function Last(entries: seq<string>, k: nat): seq<string>
    requires k <= |entries|
  {
    entries[|entries| - k..]
  }

  /**
   * The `limitHistory` contract: `r` is a suffix of `entries` whose joined
   * length fits, and either it is all of `entries` or the next older entry
   * would not fit.
   */
  predicate IsLongestFit(entries: seq<string>, maxLength: nat, r: seq<string>)
  {
    && |r| <= |entries|
    && r == Last(entries, |r|)
    && HistoryLength(r) <= maxLength
    && (|r| < |entries| ==> HistoryLength(Last(entries, |r| + 1)) > maxLength)
  }

  /** `acc.reverse()` of the entries pushed newest first. */
  function Reversed(s: seq<string>): (r: seq<string>)
    ensures |r| == |s|
  {
    if s == [] then [] else [s[|s| - 1]] + Reversed(s[..|s| - 1])
  }

  /** `limitHistory`: walk backwards from the newest entry and stop at the first one that does not fit. */
  method LimitHistory(entries: seq<string>, maxLength: nat) returns (r: seq<string>)
    ensures IsLongestFit(entries, maxLength, r)
  {
    var acc: seq<string> := [];
    var total := 0;
    var i := |entries| - 1;
    while i >= 0
      invariant -1 <= i < |entries|
      invariant Reversed(acc) == entries[i + 1..]
      invariant total == HistoryLength(entries[i + 1..]) <= maxLength
    {
      var line := entries[i];
      var nextLength := total + |line| + (if |acc| > 0 then 1 else 0);
      assert entries[i..] == [line] + entries[i + 1..];
      assert nextLength == HistoryLength(entries[i..]) by {
        assert entries[i..][1..] == entries[i + 1..];
      }
      if nextLength > maxLength {
        break;
      }
      assert (acc + [line])[..|acc|] == acc;
      acc := acc + [line];
      total := nextLength;
      i := i - 1;
    }
    r := Reversed(acc);
  }

  /** Dropping the oldest entry of a history never lengthens its joined form. */
  lemma DropOldestShortens(s: seq<string>)
    requires s != []
    ensures HistoryLength(s[1..]) <= HistoryLength(s)
  {
  }

  /** Joined length only grows as more of the older entries are kept. */
  lemma {:induction false} SuffixLengthMonotone(entries: seq<string>, a: nat, b: nat)
    requires a <= b <= |entries|
    ensures HistoryLength(Last(entries, a)) <= HistoryLength(Last(entries, b))
    decreases b - a
  {
    if a < b {
      SuffixLengthMonotone(entries, a, b - 1);
      var t := Last(entries, b);
      assert t[1..] == Last(entries, b - 1);
      DropOldestShortens(t);
    }
  }

  /** The trimmed history is the LONGEST fitting suffix: every longer suffix overflows. */
  lemma LongestFitIsLongest(entries: seq<string>, maxLength: nat, r: seq<string>, k: nat)
    requires IsLongestFit(entries, maxLength, r)
    requires |r| < k <= |entries|
    ensures HistoryLength(Last(entries, k)) > maxLength
  {
    SuffixLengthMonotone(entries, |r| + 1, k);
  }

  /** The trimmed history is determined by the entries and the budget. */
  lemma LongestFitUnique(entries: seq<string>, maxLength: nat, r1: seq<string>, r2: seq<string>)
    requires IsLongestFit(entries, maxLength, r1) && IsLongestFit(entries, maxLength, r2)
    ensures r1 == r2
  {
    if |r1| < |r2| {
      LongestFitIsLongest(entries, maxLength, r1, |r2|);
    } else if |r2| < |r1| {
      LongestFitIsLongest(entries, maxLength, r2, |r1|);
    }
  }

  /** `Array.isArray(history) ? history : []` */
  function Entries(history: Option<seq<string>>): seq<string>
  {
    if history.Some? then history.value else []
  }

  /** The history-dependent part of one prompt built at one history limit. */
  datatype Attempt = Attempt(limit: nat, trimmed: seq<string>, note: string, length: int)

  /** What `buildBase(limit)` and `makePrompt` produce, given the fixed parts' length. */
  predicate IsAttempt(history: Option<seq<string>>, overhead: nat, a: Attempt)
  {
    && IsLongestFit(Entries(history), a.limit, a.trimmed)
    && a.note == (if history.Some? && |history.value| > |a.trimmed| then HistoryNote else "")
    && a.length == overhead + |a.note| + HistoryLength(a.trimmed)
  }

  /** `buildBase`: the trimmed history and the note that says some of it was left out. */
  method BuildBase(history: Option<seq<string>>, overhead: nat, historyLimit: nat) returns (a: Attempt)
    ensures a.limit == historyLimit && IsAttempt(history, overhead, a)
    ensures a.note != "" <==> |a.trimmed| < |Entries(history)|
  {
    var trimmed := LimitHistory(Entries(history), historyLimit);
    var note := if history.Some? && |history.value| > |trimmed| then HistoryNote else "";
    a := Attempt(historyLimit, trimmed, note, overhead + |note| + HistoryLength(trimmed));
  }

  /** `Math.max(MIN_HISTORY_LIMIT, limit - over - 200)` */
  function Relimit(limit: int, over: int): (r: int)
    ensures r >= MinHistoryLimit
    ensures r >= limit - over - 200
    ensures r == MinHistoryLimit || r == limit - over - 200
  {
    Max(MinHistoryLimit, limit - over - 200)
  }

  /** `next` is the rebuild that follows `prev`: `prev` was over 4000 characters. */
  predicate Retried(prev: Attempt, next: Attempt)
  {
    prev.length > PromptLimit && next.limit == Relimit(prev.limit, prev.length - PromptLimit)
  }

  /**
   * The budget step's record of builds: the first at 1800; each later one only
   * when the one before is over 4000 characters, at that limit lowered by the
   * excess and 200 more (never below 400); at most three builds, and the last
   * (the prompt that is sent) fits unless it is the third.
   */
  predicate IsPlan(history: Option<seq<string>>, overhead: nat, attempts: seq<Attempt>)
  {
    && 1 <= |attempts| <= 3
    && attempts[0].limit == HistoryLimit
    && (forall k :: 0 <= k < |attempts| ==> IsAttempt(history, overhead, attempts[k]))
    && (forall k :: 0 <= k < |attempts| ==> MinHistoryLimit <= attempts[k].limit <= HistoryLimit)
    && (|attempts| >= 2 ==> Retried(attempts[0], attempts[1]))
    && (|attempts| == 3 ==> Retried(attempts[1], attempts[2]))
    && (|attempts| < 3 ==> attempts[|attempts| - 1].length <= PromptLimit)
  }

  /** The budget step: build at 1800 and rebuild at most twice while the prompt is over 4000 characters. */
  method PlanPrompt(history: Option<seq<string>>, overhead: nat) returns (attempts: seq<Attempt>)
    ensures IsPlan(history, overhead, attempts)
  {
    var first := BuildBase(history, overhead, HistoryLimit);
    if first.length <= PromptLimit {
      return [first];
    }
    var second := Rebuild(history, overhead, first);
    if second.length <= PromptLimit {
      return [first, second];
    }
    var third := Rebuild(history, overhead, second);
    return [first, second, third];
  }

  /** One retry: rebuild at the limit lowered by the excess and 200 more, never below 400. */
  method Rebuild(history: Option<seq<string>>, overhead: nat, prev: Attempt) returns (next: Attempt)
    requires prev.limit <= HistoryLimit && prev.length > PromptLimit
    ensures next.limit == Relimit(prev.limit, prev.length - PromptLimit)
    ensures MinHistoryLimit <= next.limit <= HistoryLimit
    ensures IsAttempt(history, overhead, next)
  {
    var adjusted := Relimit(prev.limit, prev.length - PromptLimit);
    next := BuildBase(history, overhead, adjusted);
  }

  /** A larger budget never keeps fewer entries. */
  lemma LongestFitMonotone(entries: seq<string>, m1: nat, m2: nat, r1: seq<string>, r2: seq<string>)
    requires m1 <= m2
    requires IsLongestFit(entries, m1, r1) && IsLongestFit(entries, m2, r2)
    ensures |r1| <= |r2|
  {
    if |r2| < |r1| {
      LongestFitIsLongest(entries, m2, r2, |r1|);
    }
  }

  /** A rebuild lowers the limit (or holds it at the 400 floor). */
  lemma RetryLowersLimit(prev: Attempt, next: Attempt)
    requires MinHistoryLimit <= prev.limit && Retried(prev, next)
    ensures next.limit <= prev.limit
    ensures next.limit == MinHistoryLimit || next.limit < prev.limit - 200
  {
  }

  /** Each rebuild keeps at most as many history entries as the build before it. */
  lemma PlanKeepsLessHistory(history: Option<seq<string>>, overhead: nat, attempts: seq<Attempt>)
    requires IsPlan(history, overhead, attempts)
    ensures |attempts| >= 2 ==> |attempts[1].trimmed| <= |attempts[0].trimmed|
    ensures |attempts| == 3 ==> |attempts[2].trimmed| <= |attempts[1].trimmed|
  {
    if |attempts| >= 2 {
      assert IsAttempt(history, overhead, attempts[0]) && IsAttempt(history, overhead, attempts[1]);
      RetryLowersLimit(attempts[0], attempts[1]);
      LongestFitMonotone(Entries(history), attempts[1].limit, attempts[0].limit,
                         attempts[1].trimmed, attempts[0].trimmed);
    }
    if |attempts| == 3 {
      assert IsAttempt(history, overhead, attempts[1]) && IsAttempt(history, overhead, attempts[2]);
      RetryLowersLimit(attempts[1], attempts[2]);
      LongestFitMonotone(Entries(history), attempts[2].limit, attempts[1].limit,
                         attempts[2].trimmed, attempts[1].trimmed);
    }
  }

  // ---------------------------------------------------------------------------
  // Extracting and sanitising the generated payload

  /** `s.indexOf(c)`: the position of the first `c`, if any. */
  function FirstIndexOf(s: string, c: char): (r: Option<nat>)
    ensures r.None? <==> c !in s
    ensures r.Some? ==> r.value < |s| && s[r.value] == c
    ensures r.Some? ==> forall k :: 0 <= k < r.value ==> s[k] != c
  {
    if s == [] then None
    else if s[0] == c then Some(0)
    else
      match FirstIndexOf(s[1..], c)
      case None => None
      case Some(i) => Some(i + 1)
  }

  /** `s.lastIndexOf(c)`: the position of the last `c`, if any. */
  function LastIndexOf(s: string, c: char): (r: Option<nat>)
    ensures r.None? <==> c !in s
    ensures r.Some? ==> r.value < |s| && s[r.value] == c
    ensures r.Some? ==> forall k :: r.value < k < |s| ==> s[k] != c
  {
    if s == [] then None
    else if s[|s| - 1] == c then Some(|s| - 1)
    else
      var init := s[..|s| - 1];
      assert s == init + [s[|s| - 1]];
      LastIndexOf(init, c)
  }

  /** Any `{` before a later `}` lies between the first `{` and the last `}`. */
  lemma BracePairBounds(raw: string)
    ensures (exists i, j :: 0 <= i < j < |raw| && raw[i] == '{' && raw[j] == '}') ==>
      && FirstIndexOf(raw, '{').Some? && LastIndexOf(raw, '}').Some?
      && FirstIndexOf(raw, '{').value < LastIndexOf(raw, '}').value
  {
    if exists i, j :: 0 <= i < j < |raw| && raw[i] == '{' && raw[j] == '}' {
      var i, j :| 0 <= i < j < |raw| && raw[i] == '{' && raw[j] == '}';
      assert raw[i] in raw && raw[j] in raw;
    }
  }

  /**
   * `raw.match(/\{[\s\S]*\}/)`: the greedy match runs from the first `{` to the
   * last `}`; there is none unless some `}` follows that `{`.
   */
  function ExtractJson(raw: string): (r: Option<string>)
    ensures r.Some? <==> exists i, j :: 0 <= i < j < |raw| && raw[i] == '{' && raw[j] == '}'
    ensures r.Some? ==>
      && FirstIndexOf(raw, '{').Some? && LastIndexOf(raw, '}').Some?
      && r.value == raw[FirstIndexOf(raw, '{').value..LastIndexOf(raw, '}').value + 1]
      && |r.value| >= 2 && r.value[0] == '{' && r.value[|r.value| - 1] == '}'
  {
    BracePairBounds(raw);
    var open := FirstIndexOf(raw, '{');
    var close := LastIndexOf(raw, '}');
    if open.Some? && close.Some? && open.value < close.value then
      Some(raw[open.value..close.value + 1])
    else
      None
  }

  /** The response body the endpoint sends. */
  datatype StoryBody = StoryBody(
    story: string,
    choices: seq<string>,
    isCombat: bool,
    dangerLevel: string,
    enemyLevel: int,
    buffs: seq<RawBuff>,
    error: Option<string>)

  datatype StoryResponse = StoryResponse(status: nat, body: StoryBody)

  /** The payload sent when anything fails, carrying the failure's message. */
  function Fallback(message: string): StoryBody
  {
    StoryBody(FallbackStory, FallbackChoices, false, "low", 1, [], Some(message))
  }

  /** `typeof story === 'string' && story.trim() ? story : <fixed message>` */
  function SafeStory(story: Value): (r: string)
    ensures !IsBlank(r)
    ensures story.Str? && !IsBlank(story.s) ==> r == story.s
    ensures !(story.Str? && !IsBlank(story.s)) ==> r == FailedStory
  {
    TrimEmptyIffBlank(if story.Str? then story.s else "");
    assert FailedStory[0] == '새';
    if story.Str? && Trim(story.s) != "" then story.s else FailedStory
  }

  /** No choices in combat; otherwise the non-blank strings of the array. */
  function SafeChoices(choices: Value, isCombat: bool): (r: seq<string>)
    ensures isCombat ==> r == []
    ensures forall c :: c in r ==> !IsBlank(c) && choices.Arr? && Str(c) in choices.items
    ensures !isCombat && choices.Arr? ==> forall c :: Str(c) in choices.items && !IsBlank(c) ==> c in r
    ensures !isCombat && choices.Arr? ==> r == FilterChoices(choices.items)
  {
    if isCombat then []
    else if choices.Arr? then FilterChoices(choices.items)
    else []
  }

  /** The entries of the array with a string `target` and a numeric `amount`. */
  function SafeBuffs(buffs: Value): (r: seq<RawBuff>)
    ensures forall x :: x in r ==> buffs.Arr? && exists v :: v in buffs.items && AsBuff(v) == Some(x)
    ensures buffs.Arr? ==> forall v :: v in buffs.items && AsBuff(v).Some? ==> AsBuff(v).value in r
    ensures buffs.Arr? ==> r == FilterBuffs(buffs.items)
  {
    if buffs.Arr? then FilterBuffs(buffs.items) else []
  }

  /** The sanitiser; reading a field of `null` throws. */
  function Sanitize(parsed: Value): (r: Result<StoryBody>)
    ensures r.Err? <==> parsed == Null
    ensures r.Err? ==> r.message == NullPayloadMessage
    ensures r.Ok? ==>
      var b := r.value;
      var story := Field(parsed, "story");
      && !IsBlank(b.story)
      && (if story.Str? && !IsBlank(story.s) then b.story == story.s else b.story == FailedStory)
      && (Truthy(Field(parsed, "isCombat")) ==> b.choices == [])
      && (forall c :: c in b.choices ==> !IsBlank(c) && Field(parsed, "choices").Arr? && Str(c) in Field(parsed, "choices").items)
      && (!Truthy(Field(parsed, "isCombat")) && Field(parsed, "choices").Arr? ==>
            forall c :: Str(c) in Field(parsed, "choices").items && !IsBlank(c) ==> c in b.choices)
      && b.isCombat == Truthy(Field(parsed, "isCombat"))
      && b.dangerLevel == (if Field(parsed, "dangerLevel").Str? then Field(parsed, "dangerLevel").s else "low")
      && b.enemyLevel == (if IsFiniteNumber(Field(parsed, "enemyLevel")) then Field(parsed, "enemyLevel").x.n else 1)
      && b.choices == SafeChoices(Field(parsed, "choices"), Truthy(Field(parsed, "isCombat")))
      && (forall x :: x in b.buffs ==> Field(parsed, "buffs").Arr? && exists v :: v in Field(parsed, "buffs").items && AsBuff(v) == Some(x))
      && (Field(parsed, "buffs").Arr? ==>
            forall v :: v in Field(parsed, "buffs").items && AsBuff(v).Some? ==> AsBuff(v).value in b.buffs)
      && b.buffs == SafeBuffs(Field(parsed, "buffs"))
      && b.error.None?
  {
    if parsed == Null then Err(NullPayloadMessage)
    else
      var isCombat := Truthy(Field(parsed, "isCombat"));
      var danger := Field(parsed, "dangerLevel");
      var level := Field(parsed, "enemyLevel");
      Ok(StoryBody(
        SafeStory(Field(parsed, "story")),
        SafeChoices(Field(parsed, "choices"), isCombat),
        isCombat,
        if danger.Str? then danger.s else "low",
        if IsFiniteNumber(level) then level.x.n else 1,
        SafeBuffs(Field(parsed, "buffs")),
        None))
  }

  /**
   * The `try` / `catch` of the handler: the generator's text (or the error it
   * threw) and `JSON.parse` (returning the error it would throw) are inputs.
   */
  function Respond(generated: Result<string>, parse: string -> Result<Value>): (resp: StoryResponse)
    ensures resp.status == 200
    ensures generated.Err? ==> resp.body == Fallback(generated.message)
    ensures generated.Ok? && ExtractJson(generated.value).None? ==> resp.body == Fallback(NoJsonMessage)
    ensures resp.body.error.None? <==>
      && generated.Ok? && ExtractJson(generated.value).Some?
      && parse(ExtractJson(generated.value).value).Ok?
      && parse(ExtractJson(generated.value).value).value != Null
    ensures resp.body.error.None? ==>
      Sanitize(parse(ExtractJson(generated.value).value).value) == Ok(resp.body)
    ensures resp.body.error.Some? ==> resp.body == Fallback(resp.body.error.value)
  {
    match generated
    case Err(m) => StoryResponse(200, Fallback(m))
    case Ok(raw) =>
      match ExtractJson(raw)
      case None => StoryResponse(200, Fallback(NoJsonMessage))
      case Some(json) =>
        match parse(json)
        case Err(m) => StoryResponse(200, Fallback(m))
        case Ok(parsed) =>
          match Sanitize(parsed)
          case Err(m) => StoryResponse(200, Fallback(m))
          case Ok(body) => StoryResponse(200, body)
  }

  /** Whatever goes wrong, the client receives a status of 200 and a playable turn:
      two choices, no combat, tier "low", level 1, no buffs. */
  lemma FailureIsPlayable(generated: Result<string>, parse: string -> Result<Value>)
    ensures var r := Respond(generated, parse);
      r.body.error.Some? ==>
        && r.status == 200
        && r.body.story == FallbackStory && r.body.choices == ["숨 고르기", "조심스럽게 계속 이동"]
        && !r.body.isCombat && r.body.dangerLevel == "low" && r.body.enemyLevel == 1 && r.body.buffs == []
  {
  }

  /** Every response carries a non-blank story. */
  lemma StoryNeverBlank(generated: Result<string>, parse: string -> Result<Value>)
    ensures !IsBlank(Respond(generated, parse).body.story)
  {
    assert FallbackStory[0] == '이';
  }
}
