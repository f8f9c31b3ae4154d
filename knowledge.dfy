/**
 * The knowledge base the dialogue engine reads (four mappings loaded once and
 * never changed), the fixed word lists of the classifier, the mood labels the
 * classifier can return beside the mood categories, and the intensity buckets.
 */
module Knowledge {

  /** A fuzzy-similarity score on the 0..100 scale. */
  type Score = x: int | 0 <= x <= 100

  /** `fuzz.partial_ratio(text, keyword)`, taken as a given scoring function. */
  type Scorer = (string, string) -> Score

  /** An ordered mapping from a category name to its keyword list (iteration order matters). */
  type Table = seq<(string, seq<string>)>

  /** mood -> intensity -> trigger category (or "General") -> suggestions. */
  type Solutions = map<string, map<string, map<string, seq<string>>>>

  datatype KnowledgeBase = KnowledgeBase(
    moods: Table,
    responses: map<string, seq<string>>,
    triggers: Table,
    solutions: Solutions)

  /** The category names of an ordered mapping are distinct, as the keys of a dictionary are. */
  predicate DistinctKeys(t: Table) {
    forall i, j :: 0 <= i < j < |t| ==> t[i].0 != t[j].0
  }

  /**
   * What the engine takes for granted of the loaded data: the trigger mapping is
   * a non-empty dictionary (its ranking reads the first entry) and there is at
   * least one fallback reply for an unrecognised mood (one is drawn at random).
   */
  predicate WellFormed(kb: KnowledgeBase) {
    && DistinctKeys(kb.triggers)
    && |kb.triggers| > 0
    && UnknownMood in kb.responses
    && |kb.responses[UnknownMood]| > 0
  }

  const Greetings: seq<string> := ["hi", "hello", "hey", "heyy", "hola", "yo", "sup"]
  const Negations: seq<string> := ["not", "no", "never", "n't", "dont", "don't", "isn't", "bad", "worse"]
  const PositiveWords: seq<string> := ["good", "happy", "great", "fine", "okay", "alright"]

  const GreetingMood: string := "Greeting"
  const SadLonely: string := "Sad / Lonely"
  const UnknownMood: string := "Unknown"
  const GeneralTrigger: string := "General"

  const Low: string := "Low"
  const Medium: string := "Medium"
  const High: string := "High"

  predicate IsLevel(s: string) {
    s == Low || s == Medium || s == High
  }

  /** The intensity bucket of a 1-10 rating; the comparisons alone decide, with no range check. */
  function IntensityLevel(v: int): (r: string)
    ensures IsLevel(r)
    ensures r == Low <==> v <= 3
    ensures r == Medium <==> 4 <= v <= 7
    ensures r == High <==> 8 <= v
  {
    if v <= 3 then Low else if v <= 7 then Medium else High
  }
}
