/**
 * The scoring and extraction helpers of the agent's subconscious: the
 * complexity and importance of a thought, its themes, the time-of-day
 * bucket, its emotional words and charge; the `PatternRecognizer`, which
 * counts key phrases across thoughts; and the `MemoryConsolidator`, which
 * keeps the intense or clear thoughts.
 */
module Subconscious {
  import opened Wrappers
  import opened PyStr
  import opened Levels
  import opened Seqs
  import opened Dicts
  import opened Words

  datatype ProcessType = Intuition | PatternRecognition | EmotionalProcessing | CreativeIncubation
                       | MemoryConsolidation | DreamSimulation
  {
    function Value(): string {
      match this
      case Intuition => "intuition"
      case PatternRecognition => "patterns"
      case EmotionalProcessing => "emotions"
      case CreativeIncubation => "creative"
      case MemoryConsolidation => "memory"
      case DreamSimulation => "dreams"
    }
  }

  datatype SubconsciousThought = SubconsciousThought(
    id: string, content: string, processType: ProcessType, intensity: real, timestamp: Time,
    relatedConsciousThoughts: seq<string>, emotionalCharge: real, clarity: real)

  /** Does the text contain any of the words as a substring? */
  predicate ContainsAny(text: string, words: seq<string>) {
    exists i :: 0 <= i < |words| && Contains(text, words[i])
  }

  // ---------------------------------------------------------------------------
  // Scores
  // ---------------------------------------------------------------------------

  /**
   * `_assess_complexity`: the word count over 100 plus half the share of
   * distinct words, capped at 1; a text without words divides by zero.
   */
  function AssessComplexity(text: string): (r: Result<real, string>)
    ensures r.Err? <==> Split(text) == []
    ensures r.Ok? ==> 0.0 < r.value <= 1.0
    ensures r.Ok? && |Split(text)| >= 100 ==> r.value == 1.0
    ensures r.Ok? && |Split(text)| >= 50 && |Distinct(Split(text))| == |Split(text)| ==> r.value == 1.0
  {
    var words := Split(text);
    if words == [] then Err("ZeroDivisionError")
    else
      DistinctSize(words);
      Ok(ComplexityScore(|words|, |Distinct(words)|))
  }

  /** `n / 100 + distinct / n * 0.5` for `n` words of which `distinct` differ, capped at 1. */
  function ComplexityScore(n: nat, distinct: nat): (r: real)
    requires 1 <= distinct <= n
    ensures 0.0 < r <= 1.0
    ensures n >= 100 ==> r == 1.0
    ensures n >= 50 && distinct == n ==> r == 1.0
  {
    var diversity := Ratio(distinct, n);
    AtMostOne(n as real / 100.0 + diversity * 0.5)
  }

  const ImportantKeywords: seq<string> := ["сознание", "искусственный", "интеллект", "обучение", "развитие"]
  const ImportantTypes: seq<string> := ["reflection", "analysis", "insight"]

  /**
   * `_assess_importance`: 0.5, plus 0.3 when the lower-cased text mentions a
   * key word, plus 0.2 for a reflection, analysis or insight, capped at 1.
   */
  function AssessImportance(text: string, thoughtType: string): (r: real)
    ensures 0.5 <= r <= 1.0
    ensures r > 0.5 <==> ContainsAny(Lower(text), ImportantKeywords) || thoughtType in ImportantTypes
    ensures r == 1.0 <==> ContainsAny(Lower(text), ImportantKeywords) && thoughtType in ImportantTypes
  {
    var keyword := if ContainsAny(Lower(text), ImportantKeywords) then 0.3 else 0.0;
    var kind := if thoughtType in ImportantTypes then 0.2 else 0.0;
    AtMostOne(0.5 + keyword + kind)
  }

  // ---------------------------------------------------------------------------
  // Themes
  // ---------------------------------------------------------------------------

  /** The themes and their key words, in table order. */
  function ThemeTable(): seq<(string, seq<string>)> {
    [ ("сознание", ["сознание", "осознание", "самосознание"]),
      ("обучение", ["обучение", "изучение", "познание"]),
      ("развитие", ["развитие", "рост", "прогресс"]),
      ("технология", ["технология", "искусственный", "интеллект"]) ]
  }

  lemma ThemeTableIsDictionary()
    ensures NoDup(Keys(ThemeTable()))
  {
    var ks := Keys(ThemeTable());
    assert ks == ["сознание", "обучение", "развитие", "технология"];
    assert forall i, j :: 0 <= i < j < 4 ==> ks[i][0] != ks[j][0];
  }

  /** The themes whose key words occur in the text, in table order. */
  function Themes(text: string, table: seq<(string, seq<string>)>): (r: seq<string>)
    ensures |r| <= |table|
    ensures forall i :: 0 <= i < |r| ==> exists j :: 0 <= j < |table| && table[j].0 == r[i] && ContainsAny(text, table[j].1)
  {
    if table == [] then []
    else
      var init := table[..|table| - 1];
      var last := table[|table| - 1];
      assert forall j :: 0 <= j < |init| ==> init[j] == table[j];
      Themes(text, init) + (if ContainsAny(text, last.1) then [last.0] else [])
  }

  /**
   * A theme is listed exactly when one of its key words occurs, and (the
   * table naming each theme once) at most once.
   */
  lemma {:induction false} ThemesSpec(text: string, table: seq<(string, seq<string>)>, j: int)
    requires NoDup(Keys(table)) && 0 <= j < |table|
    ensures table[j].0 in Themes(text, table) <==> ContainsAny(text, table[j].1)
    ensures NoDup(Themes(text, table))
  {
    var init := table[..|table| - 1];
    var last := table[|table| - 1];
    assert Keys(init) == Keys(table)[..|table| - 1];
    assert NoDup(Keys(init));
    assert last.0 !in Keys(init) by {
      forall k | 0 <= k < |init| ensures Keys(init)[k] != last.0 {
        assert Keys(init)[k] == Keys(table)[k] && last.0 == Keys(table)[|table| - 1];
      }
    }
    ThemesFromTable(text, init, last.0);
    if j < |table| - 1 {
      ThemesSpec(text, init, j);
      assert Keys(table)[j] != Keys(table)[|table| - 1];
    } else if init != [] {
      ThemesSpec(text, init, 0);
    }
  }

  /** Only names of the table are listed. */
  lemma {:induction false} ThemesFromTable(text: string, table: seq<(string, seq<string>)>, name: string)
    requires name !in Keys(table)
    ensures name !in Themes(text, table)
  {
    if table != [] {
      var init := table[..|table| - 1];
      assert Keys(init) == Keys(table)[..|table| - 1];
      assert Keys(table)[|table| - 1] == table[|table| - 1].0;
      ThemesFromTable(text, init, name);
    }
  }

  lemma ThemesSnoc(text: string, table: seq<(string, seq<string>)>, i: int)
    requires 0 <= i < |table|
    ensures Themes(text, table[..i + 1])
      == Themes(text, table[..i]) + (if ContainsAny(text, table[i].1) then [table[i].0] else [])
  {
    assert table[..i + 1][..i] == table[..i];
  }

  /** `_extract_themes`: each theme of the table in turn, kept when a key word occurs in the lower-cased text. */
  method ExtractThemes(text: string) returns (r: seq<string>)
    ensures r == Themes(Lower(text), ThemeTable())
  {
    var table := ThemeTable();
    var lowered := Lower(text);
    r := [];
    var i := 0;
    while i < |table|
      invariant 0 <= i <= |table|
      invariant r == Themes(lowered, table[..i])
    {
      ThemesSnoc(lowered, table, i);
      if ContainsAny(lowered, table[i].1) {
        r := r + [table[i].0];
      }
      i := i + 1;
    }
    assert table[..i] == table;
  }

  // ---------------------------------------------------------------------------
  // Time of day
  // ---------------------------------------------------------------------------

  const Morning: string := "утренние мысли"
  const Daytime: string := "дневные мысли"
  const Evening: string := "вечерние мысли"
  const Night: string := "ночные мысли"

  /**
   * `_analyze_time_pattern`, given the hour `datetime.fromisoformat` read
   * from the timestamp (`None` when it could not parse it).
   */
  function TimeBucket(hour: Option<int>): (r: Option<string>)
    ensures r.None? <==> hour.None?
    ensures hour.Some? ==> (r == Some(Morning) <==> 6 <= hour.value < 12)
    ensures hour.Some? ==> (r == Some(Daytime) <==> 12 <= hour.value < 18)
    ensures hour.Some? ==> (r == Some(Evening) <==> 18 <= hour.value < 24)
    ensures hour.Some? ==> (r == Some(Night) <==> !(6 <= hour.value < 24))
  {
    match hour
    case None => None
    case Some(h) =>
      assert Morning[0] != Daytime[0] && Morning[0] != Evening[0] && Morning[0] != Night[0];
      assert Daytime[0] != Evening[0] && Daytime[0] != Night[0] && Evening[0] != Night[0];
      if 6 <= h < 12 then Some(Morning)
      else if 12 <= h < 18 then Some(Daytime)
      else if 18 <= h < 24 then Some(Evening)
      else Some(Night)
  }

  // ---------------------------------------------------------------------------
  // Emotions
  // ---------------------------------------------------------------------------

  const EmotionalWordSet: set<string> := {
    "радость", "счастье", "восторг", "удовольствие",
    "грусть", "печаль", "тоска", "отчаяние",
    "любовь", "нежность", "привязанность",
    "гнев", "раздражение", "злость",
    "страх", "тревога", "беспокойство",
    "надежда", "вера", "оптимизм" }

  /** The words of the list that are in the set, in order, with repeats. */
  function KeepWords(words: seq<string>, keep: set<string>): (r: seq<string>)
    ensures |r| <= |words|
    ensures forall i :: 0 <= i < |r| ==> r[i] in keep && r[i] in words
    ensures forall i :: 0 <= i < |words| && words[i] in keep ==> words[i] in r
  {
    if words == [] then []
    else
      var init := words[..|words| - 1];
      assert forall j :: 0 <= j < |init| ==> init[j] == words[j];
      KeepWords(init, keep) + (if words[|words| - 1] in keep then [words[|words| - 1]] else [])
  }

  /** Kept words of consecutive word lists come in order: the filter keeps order and repeats. */
  lemma {:induction false} KeepWordsAppend(a: seq<string>, b: seq<string>, keep: set<string>)
    ensures KeepWords(a + b, keep) == KeepWords(a, keep) + KeepWords(b, keep)
    decreases |b|
  {
    if b == [] {
      assert a + b == a;
    } else {
      assert (a + b)[..|a + b| - 1] == a + b[..|b| - 1];
      KeepWordsAppend(a, b[..|b| - 1], keep);
    }
  }

  /** The filter keeps every occurrence of a kept word and none of any other. */
  lemma {:induction false} KeepWordsCounts(words: seq<string>, keep: set<string>, w: string)
    ensures multiset(KeepWords(words, keep))[w] == if w in keep then multiset(words)[w] else 0
  {
    if words != [] {
      var init, last := words[..|words| - 1], words[|words| - 1];
      KeepWordsCounts(init, keep, w);
      assert words == init + [last];
    }
  }

  /**
   * `_extract_emotional_words`: the lower-cased words of the text that are
   * emotional words, each as often as it occurs among them.
   */
  function ExtractEmotionalWords(text: string): (r: seq<string>)
    ensures forall i :: 0 <= i < |r| ==> r[i] in EmotionalWordSet && r[i] in Split(Lower(text))
    ensures forall w :: w in Split(Lower(text)) && w in EmotionalWordSet ==> w in r
    ensures forall w :: w in EmotionalWordSet ==> multiset(r)[w] == multiset(Split(Lower(text)))[w]
  {
    var words := Split(Lower(text));
    forall w | w in EmotionalWordSet
      ensures multiset(KeepWords(words, EmotionalWordSet))[w] == multiset(words)[w]
    {
      KeepWordsCounts(words, EmotionalWordSet, w);
    }
    forall w | w in words && w in EmotionalWordSet
      ensures w in KeepWords(words, EmotionalWordSet)
    {
      var i :| 0 <= i < |words| && words[i] == w;
    }
    KeepWords(words, EmotionalWordSet)
  }

  const PositiveWords: seq<string> := ["радость", "счастье", "восторг", "любовь", "надежда", "успех"]
  const NegativeWords: seq<string> := ["грусть", "страх", "гнев", "отчаяние", "тревога", "боль"]

  /** How many of the listed words occur in the text as substrings (each counted once). */
  function CountOccurring(text: string, words: seq<string>): (n: nat)
    ensures n <= |words|
    ensures n == 0 <==> !ContainsAny(text, words)
  {
    if words == [] then 0
    else
      var rest := CountOccurring(text, words[1..]);
      assert ContainsAny(text, words) <==> Contains(text, words[0]) || ContainsAny(text, words[1..]) by {
        if ContainsAny(text, words[1..]) {
          var i :| 0 <= i < |words[1..]| && Contains(text, words[1..][i]);
          assert Contains(text, words[i + 1]);
        }
        if ContainsAny(text, words) && !Contains(text, words[0]) {
          var i :| 0 <= i < |words| && Contains(text, words[i]);
          assert Contains(text, words[1..][i - 1]);
        }
      }
      (if Contains(text, words[0]) then 1 else 0) + rest
  }

  /**
   * `analyze_emotional_charge`: with `pos` positive and `neg` negative words
   * occurring in the lower-cased text, `(pos - neg) / (pos + neg)`, or 0 when
   * none occurs.
   */
  function EmotionalCharge(content: string): (r: real)
    ensures -1.0 <= r <= 1.0
    ensures r == 0.0 <==> CountOccurring(Lower(content), PositiveWords) == CountOccurring(Lower(content), NegativeWords)
    ensures r > 0.0 <==> CountOccurring(Lower(content), PositiveWords) > CountOccurring(Lower(content), NegativeWords)
    ensures !ContainsAny(Lower(content), PositiveWords) && !ContainsAny(Lower(content), NegativeWords) ==> r == 0.0
  {
    Charge(CountOccurring(Lower(content), PositiveWords), CountOccurring(Lower(content), NegativeWords))
  }

  /** `(pos - neg) / (pos + neg)`, or 0 when both are 0: the balance of positive over negative. */
  function Charge(pos: nat, neg: nat): (r: real)
    ensures -1.0 <= r <= 1.0
    ensures r == 0.0 <==> pos == neg
    ensures r > 0.0 <==> pos > neg
  {
    if pos + neg == 0 then 0.0
    else
      var s := (pos + neg) as real;
      var r := (pos - neg) as real / s;
      QuotientSigns((pos - neg) as real, s, r);
      r
  }

  lemma QuotientSigns(a: real, s: real, q: real)
    requires s > 0.0 && q == a / s
    ensures q > 0.0 <==> a > 0.0
    ensures q == 0.0 <==> a == 0.0
    ensures q <= 1.0 <==> a <= s
    ensures q >= -1.0 <==> -s <= a
  {
    assert q * s == a;
    assert (1.0 - q) * s == s - a;
    var t := -q;
    assert t * s == -a;
    assert (1.0 - t) * s == s + a;
  }

  // ---------------------------------------------------------------------------
  // PatternRecognizer
  // ---------------------------------------------------------------------------

  const KeyPhrases: seq<string> := ["я думаю", "возможно", "наверное", "кажется", "если", "то", "потому что"]

  /** A linguistic pattern: the phrase and how often it has now been seen. */
  datatype PatternHit = PatternHit(phrase: string, frequency: int)

  function Count(counters: map<string, int>, phrase: string): int {
    if phrase in counters then counters[phrase] else 0
  }

  /**
   * `analyze_pattern` from phrase `phrases[0]` on: each phrase occurring in
   * the text has its counter raised by one, and the first whose counter
   * reaches 3 is reported at once, leaving the later phrases uncounted.
   */
  function Scan(counters: map<string, int>, text: string, phrases: seq<string>): (Option<PatternHit>, map<string, int>)
    decreases |phrases|
  {
    if phrases == [] then (None, counters)
    else
      var p := phrases[0];
      if Contains(text, p) then
        var raised := counters[p := Count(counters, p) + 1];
        if raised[p] >= 3 then (Some(PatternHit(p, raised[p])), raised)
        else Scan(raised, text, phrases[1..])
      else Scan(counters, text, phrases[1..])
  }

  /** Every counter moves by at most one, and only for a phrase in the list. */
  lemma {:induction false} ScanFrame(counters: map<string, int>, text: string, phrases: seq<string>)
    requires NoDup(phrases)
    ensures var after := Scan(counters, text, phrases).1;
      && (forall k :: k !in phrases ==> Count(after, k) == Count(counters, k))
      && (forall k :: Count(counters, k) <= Count(after, k) <= Count(counters, k) + 1)
    decreases |phrases|
  {
    if phrases != [] {
      var p := phrases[0];
      var rest := phrases[1..];
      assert NoDup(rest) && p !in rest;
      var start := if Contains(text, p) then counters[p := Count(counters, p) + 1] else counters;
      ScanFrame(start, text, rest);
    }
  }

  /**
   * A reported phrase is one of the list that occurs in the text; its counter
   * is the reported frequency, at least 3; the phrases after it are left
   * uncounted.
   */
  lemma {:induction false} ScanHit(counters: map<string, int>, text: string, phrases: seq<string>)
    requires NoDup(phrases)
    ensures var (hit, after) := Scan(counters, text, phrases);
      hit.Some? ==> hit.value.frequency >= 3 && Contains(text, hit.value.phrase)
                    && Count(after, hit.value.phrase) == hit.value.frequency
                    && exists h :: 0 <= h < |phrases| && phrases[h] == hit.value.phrase
                         && forall j :: h < j < |phrases| ==> Count(after, phrases[j]) == Count(counters, phrases[j])
    decreases |phrases|
  {
    if phrases != [] {
      var p := phrases[0];
      var rest := phrases[1..];
      assert NoDup(rest) && p !in rest;
      var start := if Contains(text, p) then counters[p := Count(counters, p) + 1] else counters;
      var (hit, after) := Scan(counters, text, phrases);
      if Contains(text, p) && start[p] >= 3 {
        forall j | 0 < j < |phrases| ensures Count(after, phrases[j]) == Count(counters, phrases[j]) {
          assert phrases[j] != p;
        }
      } else if hit.Some? {
        ScanHit(start, text, rest);
        var h :| 0 <= h < |rest| && rest[h] == hit.value.phrase
          && forall j :: h < j < |rest| ==> Count(after, rest[j]) == Count(start, rest[j]);
        forall j | h + 1 < j < |phrases| ensures Count(after, phrases[j]) == Count(counters, phrases[j]) {
          assert phrases[j] == rest[j - 1] && phrases[j] != p;
        }
      }
    }
  }

  /** When nothing is reported, every occurring phrase gained exactly one and is still below 3. */
  lemma {:induction false} ScanMiss(counters: map<string, int>, text: string, phrases: seq<string>)
    requires NoDup(phrases)
    ensures var (hit, after) := Scan(counters, text, phrases);
      hit.None? ==> forall i :: 0 <= i < |phrases| ==>
        Count(after, phrases[i]) == Count(counters, phrases[i]) + (if Contains(text, phrases[i]) then 1 else 0)
        && (Contains(text, phrases[i]) ==> Count(after, phrases[i]) < 3)
    decreases |phrases|
  {
    if phrases != [] {
      var p := phrases[0];
      var rest := phrases[1..];
      assert NoDup(rest) && p !in rest;
      var start := if Contains(text, p) then counters[p := Count(counters, p) + 1] else counters;
      var (hit, after) := Scan(counters, text, phrases);
      if hit.None? && !(Contains(text, p) && start[p] >= 3) {
        ScanFrame(start, text, rest);
        ScanMiss(start, text, rest);
        forall i | 0 < i < |phrases|
          ensures Count(after, phrases[i]) == Count(counters, phrases[i]) + (if Contains(text, phrases[i]) then 1 else 0)
        {
          assert phrases[i] == rest[i - 1] && phrases[i] != p;
        }
      }
    }
  }

  /** `PatternRecognizer`: per-phrase counters across the thoughts it has seen. */
  class PatternRecognizer {
    var patternCounters: map<string, int>

    constructor ()
      ensures patternCounters == map[]
    {
      patternCounters := map[];
    }

    /** `analyze_pattern`: counts the key phrases in the lower-cased content, reporting the first to reach 3. */
    method AnalyzePattern(thought: SubconsciousThought) returns (r: Option<PatternHit>)
      modifies this
      ensures (r, patternCounters) == Scan(old(patternCounters), Lower(thought.content), KeyPhrases)
    {
      var text := Lower(thought.content);
      var i := 0;
      while i < |KeyPhrases|
        invariant 0 <= i <= |KeyPhrases|
        invariant Scan(old(patternCounters), text, KeyPhrases) == Scan(patternCounters, text, KeyPhrases[i..])
      {
        var phrase := KeyPhrases[i];
        assert KeyPhrases[i..][1..] == KeyPhrases[i + 1..];
        if Contains(text, phrase) {
          patternCounters := patternCounters[phrase := Count(patternCounters, phrase) + 1];
          if patternCounters[phrase] >= 3 {
            return Some(PatternHit(phrase, patternCounters[phrase]));
          }
        }
        i := i + 1;
      }
      return None;
    }
  }

  // ---------------------------------------------------------------------------
  // MemoryConsolidator
  // ---------------------------------------------------------------------------

  datatype ConsolidatedMemory = ConsolidatedMemory(content: string, intensity: real, clarity: real, timestamp: Time)

  function Record(t: SubconsciousThought): ConsolidatedMemory {
    ConsolidatedMemory(t.content, t.intensity, t.clarity, t.timestamp)
  }

  /** The thoughts whose intensity or clarity exceeds the threshold, in order. */
  function Above(ts: seq<SubconsciousThought>, threshold: real): (r: seq<SubconsciousThought>)
    ensures |r| <= |ts|
    ensures forall i :: 0 <= i < |r| ==> r[i] in ts && (r[i].intensity > threshold || r[i].clarity > threshold)
    ensures forall i :: 0 <= i < |ts| && (ts[i].intensity > threshold || ts[i].clarity > threshold) ==> ts[i] in r
  {
    if ts == [] then []
    else
      var init := ts[..|ts| - 1];
      var last := ts[|ts| - 1];
      assert forall j :: 0 <= j < |init| ==> init[j] == ts[j];
      Above(init, threshold) + (if last.intensity > threshold || last.clarity > threshold then [last] else [])
  }

  /** Filtering above 0.7 first changes nothing about what clears 0.8. */
  lemma {:induction false} AboveTwice(ts: seq<SubconsciousThought>)
    ensures Above(Above(ts, 0.7), 0.8) == Above(ts, 0.8)
  {
    if ts != [] {
      var init := ts[..|ts| - 1];
      var last := ts[|ts| - 1];
      AboveTwice(init);
      var once := Above(ts, 0.7);
      if last.intensity > 0.7 || last.clarity > 0.7 {
        assert once[..|once| - 1] == Above(init, 0.7);
      } else {
        assert once == Above(init, 0.7);
      }
    }
  }

  function Records(ts: seq<SubconsciousThought>): (r: seq<ConsolidatedMemory>)
    ensures |r| == |ts|
    ensures forall i :: 0 <= i < |ts| ==> r[i] == Record(ts[i])
  {
    seq(|ts|, i requires 0 <= i < |ts| => Record(ts[i]))
  }

  /** `MemoryConsolidator`: the thoughts judged worth keeping. */
  class MemoryConsolidator {
    var consolidatedMemories: seq<ConsolidatedMemory>
    /** Declared by the source as the minimum batch size; no operation reads it. */
    const consolidationThreshold: int

    constructor ()
      ensures consolidatedMemories == [] && consolidationThreshold == 5
    {
      consolidatedMemories := [];
      consolidationThreshold := 5;
    }

    /** `consolidate_thought`: keeps the thought when its intensity or clarity exceeds 0.8. */
    method ConsolidateThought(t: SubconsciousThought)
      modifies this
      ensures consolidatedMemories == old(consolidatedMemories) + Records(Above([t], 0.8))
    {
      assert [t][..0] == [];
      if t.intensity > 0.8 || t.clarity > 0.8 {
        consolidatedMemories := consolidatedMemories + [Record(t)];
      }
    }

    /**
     * `consolidate_batch`: consolidates each thought above 0.7; since
     * `consolidate_thought` then asks for 0.8, exactly the thoughts above 0.8
     * are kept, in order.
     */
    method ConsolidateBatch(ts: seq<SubconsciousThought>)
      modifies this
      ensures consolidatedMemories == old(consolidatedMemories) + Records(Above(ts, 0.8))
    {
      ghost var start := consolidatedMemories;
      var important := Above(ts, 0.7);
      var i := 0;
      while i < |important|
        invariant 0 <= i <= |important|
        invariant consolidatedMemories == start + Records(Above(important[..i], 0.8))
      {
        AboveSnoc(important, i, 0.8, start);
        ConsolidateThought(important[i]);
        i := i + 1;
      }
      assert important[..i] == important;
      AboveTwice(ts);
    }
  }

  lemma AboveSnoc(ts: seq<SubconsciousThought>, i: int, threshold: real, acc: seq<ConsolidatedMemory>)
    requires 0 <= i < |ts|
    ensures acc + Records(Above(ts[..i + 1], threshold))
      == (acc + Records(Above(ts[..i], threshold))) + Records(Above([ts[i]], threshold))
  {
    assert ts[..i + 1][..i] == ts[..i];
    assert [ts[i]][..0] == [];
    assert Records(Above(ts[..i + 1], threshold)) == Records(Above(ts[..i], threshold)) + Records(Above([ts[i]], threshold));
  }
}
