/**
 * Text classification: mapping an utterance to a mood label and to a trigger
 * category (app.py `detect_mood`, `detect_trigger`). The trigger scoring and
 * ranking defined here are shared with the console variant.
 */
module Classifier {
  import opened Wrappers
  import opened Text
  import opened Knowledge

  // ---------------------------------------------------------------------------
  // Mood detection
  // ---------------------------------------------------------------------------

  /** Some whitespace token of `text` is exactly one of the greeting words. */
  predicate HasGreetingToken(text: string) {
    exists w :: w in Words(text) && w in Greetings
  }

  /** `text` holds a negation marker and a positive word, each as a substring ("not good"). */
  predicate NegatedPositive(text: string) {
    ContainsAny(text, Negations) && ContainsAny(text, PositiveWords)
  }

  /** The score of one keyword against the (lower-cased) input. */
  function KeywordScore(ratio: Scorer, text: string, keyword: string): Score {
    ratio(text, Lower(keyword))
  }

  /** Some keyword of a mood category scores above 85. */
  predicate MoodHit(ratio: Scorer, text: string, keywords: seq<string>) {
    exists k :: 0 <= k < |keywords| && KeywordScore(ratio, text, keywords[k]) > 85
  }

  /** The position of the first mood category, in mapping order, with a keyword scoring above 85. */
  function FirstMoodHit(moods: Table, ratio: Scorer, text: string): (r: Option<nat>)
    ensures r.Some? ==> r.value < |moods| && MoodHit(ratio, text, moods[r.value].1)
    ensures r.Some? ==> forall j :: 0 <= j < r.value ==> !MoodHit(ratio, text, moods[j].1)
    ensures r.None? ==> forall j :: 0 <= j < |moods| ==> !MoodHit(ratio, text, moods[j].1)
  {
    if moods == [] then None
    else if MoodHit(ratio, text, moods[0].1) then Some(0)
    else match FirstMoodHit(moods[1..], ratio, text)
      case None => None
      case Some(k) => Some(k + 1)
  }

  /** A label `detect_mood` can hand to the confirmation step: a mood category or the negated-positive label. */
  predicate Confirmable(kb: KnowledgeBase, mood: string) {
    && mood != GreetingMood
    && mood != UnknownMood
    && (mood == SadLonely || exists i :: 0 <= i < |kb.moods| && kb.moods[i].0 == mood)
  }

  /** Some mood category has a keyword scoring above 85. */
  predicate AnyMoodHit(moods: Table, ratio: Scorer, text: string) {
    exists j :: 0 <= j < |moods| && MoodHit(ratio, text, moods[j].1)
  }

  /** Category `i` is the first, in mapping order, with a keyword scoring above 85. */
  predicate FirstHitAt(moods: Table, ratio: Scorer, text: string, i: int) {
    && 0 <= i < |moods|
    && MoodHit(ratio, text, moods[i].1)
    && forall j :: 0 <= j < i ==> !MoodHit(ratio, text, moods[j].1)
  }

  /** The mood-detection steps that follow the greeting check; both front ends share them. */
  function MoodAfterGreeting(kb: KnowledgeBase, ratio: Scorer, text: string): (r: string)
    ensures NegatedPositive(text) ==> r == SadLonely
    ensures !NegatedPositive(text) && AnyMoodHit(kb.moods, ratio, text) ==>
      exists i :: FirstHitAt(kb.moods, ratio, text, i) && r == kb.moods[i].0
    ensures !NegatedPositive(text) && !AnyMoodHit(kb.moods, ratio, text) ==> r == UnknownMood
    ensures r == GreetingMood || r == UnknownMood || Confirmable(kb, r)
  {
    if NegatedPositive(text) then SadLonely
    else match FirstMoodHit(kb.moods, ratio, text)
      case Some(i) => assert FirstHitAt(kb.moods, ratio, text, i); kb.moods[i].0
      case None => UnknownMood
  }

  /**
   * app.py `detect_mood`: a greeting token wins, then the negated-positive
   * heuristic, then the first mood category (in mapping order) with a keyword
   * scoring above 85, and otherwise "Unknown".
   */
  function DetectMood(kb: KnowledgeBase, ratio: Scorer, input: string): (r: string)
    ensures var text := Lower(input);
      && (HasGreetingToken(text) ==> r == GreetingMood)
      && (!HasGreetingToken(text) && NegatedPositive(text) ==> r == SadLonely)
      && (!HasGreetingToken(text) && !NegatedPositive(text) && AnyMoodHit(kb.moods, ratio, text) ==>
            exists i :: FirstHitAt(kb.moods, ratio, text, i) && r == kb.moods[i].0)
      && (!HasGreetingToken(text) && !NegatedPositive(text) && !AnyMoodHit(kb.moods, ratio, text) ==>
            r == UnknownMood)
    ensures r == GreetingMood || r == UnknownMood || Confirmable(kb, r)
  {
    var text := Lower(input);
    if HasGreetingToken(text) then GreetingMood else MoodAfterGreeting(kb, ratio, text)
  }

  // ---------------------------------------------------------------------------
  // Trigger scoring
  // ---------------------------------------------------------------------------

  function Max(a: int, b: int): int {
    if a >= b then a else b
  }

  /**
   * The score of one trigger category: the running maximum, in keyword order,
   * of the keyword scores above 75, starting from 0.
   */
  function CategoryScore(keywords: seq<string>, ratio: Scorer, text: string): (r: Score)
    ensures r == 0 <==> forall k :: 0 <= k < |keywords| ==> KeywordScore(ratio, text, keywords[k]) <= 75
    ensures r != 0 ==> r > 75 && exists k :: 0 <= k < |keywords| && r == KeywordScore(ratio, text, keywords[k])
    ensures forall k :: 0 <= k < |keywords| && KeywordScore(ratio, text, keywords[k]) > 75 ==>
      KeywordScore(ratio, text, keywords[k]) <= r
    decreases |keywords|
  {
    if keywords == [] then 0
    else
      var prev := CategoryScore(keywords[..|keywords| - 1], ratio, text);
      var s := KeywordScore(ratio, text, keywords[|keywords| - 1]);
      if s > 75 then Max(prev, s) else prev
  }

  /** A category's score does not depend on the order of its keywords. */
  lemma CategoryScoreOrderFree(a: seq<string>, b: seq<string>, ratio: Scorer, text: string)
    requires multiset(a) == multiset(b)
    ensures CategoryScore(a, ratio, text) == CategoryScore(b, ratio, text)
  {
    var ra, rb := CategoryScore(a, ratio, text), CategoryScore(b, ratio, text);
    if ra != 0 {
      var k :| 0 <= k < |a| && ra == KeywordScore(ratio, text, a[k]);
      assert a[k] in multiset(b);
      var m :| 0 <= m < |b| && b[m] == a[k];
      assert ra <= rb;
    }
    if rb != 0 {
      var k :| 0 <= k < |b| && rb == KeywordScore(ratio, text, b[k]);
      assert b[k] in multiset(a);
      var m :| 0 <= m < |a| && a[m] == b[k];
      assert rb <= ra;
    }
  }

  /** The `scores` dictionary: every category with its score, in mapping order. */
  function Scores(triggers: Table, ratio: Scorer, text: string): seq<(string, int)> {
    seq(|triggers|, i requires 0 <= i < |triggers| => (triggers[i].0, CategoryScore(triggers[i].1, ratio, text)))
  }

  /** The nested loops of `detect_trigger` that fill the `scores` dictionary. */
  method ComputeScores(triggers: Table, ratio: Scorer, text: string) returns (scores: seq<(string, int)>)
    ensures scores == Scores(triggers, ratio, text)
  {
    scores := [];
    var i := 0;
    while i < |triggers|
      invariant 0 <= i <= |triggers|
      invariant |scores| == i
      invariant forall c :: 0 <= c < i ==> scores[c] == (triggers[c].0, CategoryScore(triggers[c].1, ratio, text))
    {
      var category, keywords := triggers[i].0, triggers[i].1;
      var best := 0;
      var j := 0;
      while j < |keywords|
        invariant 0 <= j <= |keywords|
        invariant best == CategoryScore(keywords[..j], ratio, text)
      {
        var score := ratio(text, Lower(keywords[j]));
        if score > 75 {
          best := Max(best, score);
        }
        assert keywords[..j + 1][..j] == keywords[..j];
        j := j + 1;
      }
      assert keywords[..j] == keywords;
      scores := scores + [(category, best)];
      i := i + 1;
    }
  }

  // ---------------------------------------------------------------------------
  // Ranking: Python's stable `sorted(..., key=score, reverse=True)`
  // ---------------------------------------------------------------------------

  /** Each entry scores at least as much as the next one. */
  predicate Descending(s: seq<(string, int)>) {
    |s| <= 1 || (s[0].1 >= s[1].1 && Descending(s[1..]))
  }

  /** Places `x` before the first entry whose score does not exceed its own, keeping equal scores in arrival order. */
  function Insert(x: (string, int), ys: seq<(string, int)>): (r: seq<(string, int)>)
    ensures |r| == |ys| + 1
  {
    if ys == [] || x.1 >= ys[0].1 then [x] + ys else [ys[0]] + Insert(x, ys[1..])
  }

  /** Python's stable `sorted(scores.items(), key=score, reverse=True)`, as an insertion sort. */
  function Rank(s: seq<(string, int)>): (r: seq<(string, int)>)
    ensures |r| == |s|
  {
    if s == [] then [] else Insert(s[0], Rank(s[1..]))
  }

  lemma {:induction false} InsertSorts(x: (string, int), ys: seq<(string, int)>)
    ensures multiset(Insert(x, ys)) == multiset(ys) + multiset{x}
    ensures Insert(x, ys)[0] == x || (|ys| > 0 && Insert(x, ys)[0] == ys[0])
    ensures Descending(ys) ==> Descending(Insert(x, ys))
  {
    if ys != [] && x.1 < ys[0].1 {
      InsertSorts(x, ys[1..]);
      assert ys == [ys[0]] + ys[1..];
      assert Insert(x, ys)[1..] == Insert(x, ys[1..]);
    }
  }

  /** The ranking is a permutation of the scores, highest first. */
  lemma {:induction false} RankSorts(s: seq<(string, int)>)
    ensures multiset(Rank(s)) == multiset(s)
    ensures Descending(Rank(s))
  {
    if s != [] {
      RankSorts(s[1..]);
      InsertSorts(s[0], Rank(s[1..]));
      assert s == [s[0]] + s[1..];
    }
  }

  /** The position of the first entry, in order, that carries the highest score. */
  function FirstMaxIndex(s: seq<(string, int)>): (k: nat)
    requires |s| > 0
    ensures k < |s|
    ensures forall j :: 0 <= j < |s| ==> s[j].1 <= s[k].1
    ensures forall j :: 0 <= j < k ==> s[j].1 < s[k].1
  {
    if |s| == 1 then 0
    else
      var k := FirstMaxIndex(s[1..]);
      if s[0].1 >= s[1..][k].1 then 0 else k + 1
  }

  /** `s` without its entry at position `k`. */
  function RemoveAt(s: seq<(string, int)>, k: nat): (r: seq<(string, int)>)
    requires k < |s|
    ensures |r| == |s| - 1
  {
    s[..k] + s[k + 1..]
  }

  /**
   * The ranking starts with the first entry of highest score (ties go to the
   * earlier entry, the sort being stable) and continues with the ranking of
   * the others.
   */
  lemma {:induction false} RankPeelsFirstMax(s: seq<(string, int)>)
    requires |s| > 0
    ensures Rank(s) == [s[FirstMaxIndex(s)]] + Rank(RemoveAt(s, FirstMaxIndex(s)))
    decreases |s|
  {
    if |s| == 1 {
      assert RemoveAt(s, 0) == [];
    } else {
      RankPeelsFirstMax(s[1..]);
      if FirstMaxIndex(s) == 0 {
        PeelHead(s);
      } else {
        PeelLater(s);
      }
    }
  }

  lemma RemoveAtCons(x: (string, int), t: seq<(string, int)>, k: nat)
    requires k < |t|
    ensures [x] + RemoveAt(t, k) == RemoveAt([x] + t, k + 1)
  {
    assert ([x] + t)[..k + 1] == [x] + t[..k];
    assert ([x] + t)[k + 2..] == t[k + 1..];
  }

  /** The head is the first maximum: it stays in front. */
  lemma PeelHead(s: seq<(string, int)>)
    requires |s| > 1 && FirstMaxIndex(s) == 0
    requires Rank(s[1..]) == [s[1..][FirstMaxIndex(s[1..])]] + Rank(RemoveAt(s[1..], FirstMaxIndex(s[1..])))
    ensures Rank(s) == [s[0]] + Rank(RemoveAt(s, 0))
  {
    var t := s[1..];
    assert RemoveAt(s, 0) == t;
    var rt := Rank(t);
    assert s[0].1 >= rt[0].1;
    assert Insert(s[0], rt) == [s[0]] + rt;
  }

  /** The first maximum lies further on: the head is inserted behind it. */
  lemma PeelLater(s: seq<(string, int)>)
    requires |s| > 1 && FirstMaxIndex(s) > 0
    requires Rank(s[1..]) == [s[1..][FirstMaxIndex(s[1..])]] + Rank(RemoveAt(s[1..], FirstMaxIndex(s[1..])))
    ensures Rank(s) == [s[FirstMaxIndex(s)]] + Rank(RemoveAt(s, FirstMaxIndex(s)))
  {
    var t := s[1..];
    var k' := FirstMaxIndex(t);
    FirstMaxLater(s);
    var rest := RemoveAt(t, k');
    RemoveAtTail(s, k');
    calc {
      Rank(s);
      Insert(s[0], [t[k']] + Rank(rest));
      { InsertBehind(s[0], t[k'], Rank(rest)); }
      [t[k']] + Insert(s[0], Rank(rest));
      { RankCons(s[0], rest); }
      [t[k']] + Rank([s[0]] + rest);
    }
  }

  /** When the first maximum is not the head, it is the first maximum of the tail, which outscores the head. */
  lemma FirstMaxLater(s: seq<(string, int)>)
    requires |s| > 1 && FirstMaxIndex(s) > 0
    ensures FirstMaxIndex(s) == FirstMaxIndex(s[1..]) + 1
    ensures s[0].1 < s[1..][FirstMaxIndex(s[1..])].1
  {
  }

  lemma RemoveAtTail(s: seq<(string, int)>, k: nat)
    requires 0 < |s| && k < |s| - 1
    ensures RemoveAt(s, k + 1) == [s[0]] + RemoveAt(s[1..], k)
  {
    RemoveAtCons(s[0], s[1..], k);
    assert s == [s[0]] + s[1..];
  }

  /** An entry scoring less than the head is inserted behind it. */
  lemma InsertBehind(x: (string, int), y: (string, int), ys: seq<(string, int)>)
    requires x.1 < y.1
    ensures Insert(x, [y] + ys) == [y] + Insert(x, ys)
  {
    assert ([y] + ys)[1..] == ys;
  }

  lemma RankCons(x: (string, int), ys: seq<(string, int)>)
    ensures Rank([x] + ys) == Insert(x, Rank(ys))
  {
    assert ([x] + ys)[1..] == ys;
  }

  // ---------------------------------------------------------------------------
  // Trigger decision (app.py)
  // ---------------------------------------------------------------------------

  /** The primary trigger category and, when the match is ambiguous, a second candidate. */
  datatype TriggerGuess = TriggerGuess(best: string, second: Option<string>)

  function Abs(x: int): int {
    if x < 0 then -x else x
  }

  /** The decision `detect_trigger` takes on the ranked scores. */
  function Decide(ranked: seq<(string, int)>): TriggerGuess
    requires |ranked| > 0
  {
    if ranked[0].1 < 70 then TriggerGuess(GeneralTrigger, None)
    else if |ranked| > 1 && Abs(ranked[0].1 - ranked[1].1) <= 5 && ranked[1].1 >= 70 then
      TriggerGuess(ranked[0].0, Some(ranked[1].0))
    else TriggerGuess(ranked[0].0, None)
  }

  /** What app.py `detect_trigger` returns for `input`. */
  function TriggerOf(triggers: Table, ratio: Scorer, input: string): TriggerGuess
    requires |triggers| > 0
  {
    Decide(Rank(Scores(triggers, ratio, Lower(input))))
  }

  /** app.py `detect_trigger`: score every category, rank, then decide. */
  method DetectTrigger(triggers: Table, ratio: Scorer, input: string) returns (guess: TriggerGuess)
    requires |triggers| > 0
    ensures guess == TriggerOf(triggers, ratio, input)
  {
    var scores := ComputeScores(triggers, ratio, Lower(input));
    var ranked := Rank(scores);
    var bestCategory, bestScore := ranked[0].0, ranked[0].1;
    if bestScore < 70 {
      return TriggerGuess(GeneralTrigger, None);
    }
    if |ranked| > 1 {
      var secondCategory, secondScore := ranked[1].0, ranked[1].1;
      if Abs(bestScore - secondScore) <= 5 && secondScore >= 70 {
        return TriggerGuess(bestCategory, Some(secondCategory));
      }
    }
    return TriggerGuess(bestCategory, None);
  }

  /** No keyword of any category scores above 75. */
  predicate NoCategoryScores(triggers: Table, ratio: Scorer, text: string) {
    forall i :: 0 <= i < |triggers| ==> CategoryScore(triggers[i].1, ratio, text) == 0
  }

  /**
   * The best score is below 70 exactly when every category scores 0, and then
   * the answer is "General" alone; otherwise the primary category is the first
   * category, in mapping order, with the highest score.
   */
  lemma TriggerPrimary(triggers: Table, ratio: Scorer, input: string)
    requires |triggers| > 0
    ensures var sc := Scores(triggers, ratio, Lower(input));
      && (Rank(sc)[0].1 < 70 <==> NoCategoryScores(triggers, ratio, Lower(input)))
      && (NoCategoryScores(triggers, ratio, Lower(input)) ==> TriggerOf(triggers, ratio, input) == TriggerGuess(GeneralTrigger, None))
      && (!NoCategoryScores(triggers, ratio, Lower(input)) ==> TriggerOf(triggers, ratio, input).best == triggers[FirstMaxIndex(sc)].0)
  {
    var text := Lower(input);
    var sc := Scores(triggers, ratio, text);
    var k := FirstMaxIndex(sc);
    RankPeelsFirstMax(sc);
    assert Rank(sc)[0] == sc[k];
    if NoCategoryScores(triggers, ratio, text) {
      assert sc[k].1 == CategoryScore(triggers[k].1, ratio, text) == 0;
    } else {
      var i :| 0 <= i < |triggers| && CategoryScore(triggers[i].1, ratio, text) != 0;
      assert sc[i].1 > 75;
      assert sc[k].1 >= sc[i].1;
    }
  }

  lemma RemoveAtIndex(s: seq<(string, int)>, k: nat, j: nat)
    requires k < |s| && j < |s| - 1
    ensures RemoveAt(s, k)[j] == s[if j < k then j else j + 1]
  {
  }

  /** The decision on ranked scores with distinct names, told in terms of the unranked scores. */
  lemma DecideSecond(sc: seq<(string, int)>)
    requires |sc| > 1
    requires forall i, j :: 0 <= i < j < |sc| ==> sc[i].0 != sc[j].0
    ensures var k := FirstMaxIndex(sc);
      var rest := RemoveAt(sc, k);
      var k2 := FirstMaxIndex(rest);
      var g := Decide(Rank(sc));
      && (g.second.Some? <==> sc[k].1 - rest[k2].1 <= 5 && rest[k2].1 >= 70)
      && (g.second.Some? ==> g.best == sc[k].0 && g.second.value == rest[k2].0 && g.second.value != g.best)
  {
    var k := FirstMaxIndex(sc);
    var rest := RemoveAt(sc, k);
    var k2 := FirstMaxIndex(rest);
    RankPeelsFirstMax(sc);
    RankPeelsFirstMax(rest);
    var r := Rank(sc);
    assert r[0] == sc[k];
    assert r[1] == rest[k2];
    RemoveAtIndex(sc, k, k2);
    var j := if k2 < k then k2 else k2 + 1;
    assert rest[k2] == sc[j] && j != k;
    assert sc[k].1 >= rest[k2].1;
  }

  /**
   * A second category is reported exactly when the runner-up (the first
   * highest-scoring of the remaining categories) scores at least 70 and within
   * 5 of the best; it is then that runner-up, and never the primary category.
   */
  lemma TriggerSecond(triggers: Table, ratio: Scorer, input: string)
    requires DistinctKeys(triggers) && |triggers| > 0
    ensures var sc := Scores(triggers, ratio, Lower(input));
      var k := FirstMaxIndex(sc);
      var g := TriggerOf(triggers, ratio, input);
      if |triggers| == 1 then g.second.None?
      else
        var rest := RemoveAt(sc, k);
        var k2 := FirstMaxIndex(rest);
        && (g.second.Some? <==> sc[k].1 - rest[k2].1 <= 5 && rest[k2].1 >= 70)
        && (g.second.Some? ==> g.best == sc[k].0 && g.second.value == rest[k2].0 && g.second.value != g.best)
  {
    var sc := Scores(triggers, ratio, Lower(input));
    if |triggers| > 1 {
      DecideSecond(sc);
    }
  }

  /** Reordering the keywords within categories never changes the outcome of trigger detection. */
  lemma TriggerKeywordOrderFree(a: Table, b: Table, ratio: Scorer, input: string)
    requires |a| == |b| > 0
    requires forall i :: 0 <= i < |a| ==> a[i].0 == b[i].0 && multiset(a[i].1) == multiset(b[i].1)
    ensures TriggerOf(a, ratio, input) == TriggerOf(b, ratio, input)
  {
    var text := Lower(input);
    forall i | 0 <= i < |a|
      ensures CategoryScore(a[i].1, ratio, text) == CategoryScore(b[i].1, ratio, text)
    {
      CategoryScoreOrderFree(a[i].1, b[i].1, ratio, text);
    }
    assert Scores(a, ratio, text) == Scores(b, ratio, text);
  }
}
