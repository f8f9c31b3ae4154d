/**
 * The command-line front end (console.py): its own mood detection with a
 * substring greeting check, trigger detection that settles an ambiguous pair
 * from the user's typed choice, intensity bucketing with a default of 5, and
 * the suggestion loop that keeps a per-call used-set.
 */
module Console {
  import opened Wrappers
  import opened Text
  import opened Knowledge
  import opened Classifier
  import opened Selector

  // ---------------------------------------------------------------------------
  // Mood detection
  // ---------------------------------------------------------------------------

  /** Some greeting word occurs anywhere in `text`, possibly inside another word. */
  predicate HasGreetingSubstring(text: string) {
    ContainsAny(text, Greetings)
  }

  /**
   * console.py `detect_mood`: a greeting substring wins, then the
   * negated-positive heuristic, then the first mood category with a keyword
   * scoring above 85, and otherwise "Unknown".
   */
  function DetectMood(kb: KnowledgeBase, ratio: Scorer, input: string): (r: string)
    ensures var text := Lower(input);
      && (HasGreetingSubstring(text) ==> r == GreetingMood)
      && (!HasGreetingSubstring(text) && NegatedPositive(text) ==> r == SadLonely)
      && (!HasGreetingSubstring(text) && !NegatedPositive(text) && AnyMoodHit(kb.moods, ratio, text) ==>
            exists i :: FirstHitAt(kb.moods, ratio, text, i) && r == kb.moods[i].0)
      && (!HasGreetingSubstring(text) && !NegatedPositive(text) && !AnyMoodHit(kb.moods, ratio, text) ==>
            r == UnknownMood)
    ensures r == GreetingMood || r == UnknownMood || Confirmable(kb, r)
  {
    var text := Lower(input);
    if HasGreetingSubstring(text) then GreetingMood else MoodAfterGreeting(kb, ratio, text)
  }

  /** A greeting token is in particular a greeting substring. */
  lemma TokenGreetingIsSubstring(text: string)
    requires HasGreetingToken(text)
    ensures HasGreetingSubstring(text)
  {
    var w :| w in Words(text) && w in Greetings;
    WordsOccur(text, w);
    var k :| 0 <= k < |Greetings| && Greetings[k] == w;
  }

  /**
   * The two front ends classify alike except where the console sees a
   * greeting inside a word: the console greets whenever the chat front end
   * does, and without a greeting substring both give the same label.
   */
  lemma FrontEndsAgree(kb: KnowledgeBase, ratio: Scorer, input: string)
    ensures HasGreetingToken(Lower(input)) ==> DetectMood(kb, ratio, input) == GreetingMood
    ensures !HasGreetingSubstring(Lower(input)) ==> DetectMood(kb, ratio, input) == Classifier.DetectMood(kb, ratio, input)
  {
    if HasGreetingToken(Lower(input)) {
      TokenGreetingIsSubstring(Lower(input));
    }
  }

  /** "think" is taken for a greeting by the console, because "hi" occurs inside it. */
  lemma ThinkIsGreeting(kb: KnowledgeBase, ratio: Scorer)
    ensures DetectMood(kb, ratio, "think") == GreetingMood
  {
    var text := Lower("think");
    assert text == "think";
    assert OccursAt(text, "hi", 1);
    ContainsIff(text, "hi");
    assert Greetings[0] == "hi";
  }

  /**
   * The token-based check of the chat front end does not take "think" for a
   * greeting (provided no mood category is itself named "Greeting").
   */
  lemma ThinkIsNoGreetingByTokens(kb: KnowledgeBase, ratio: Scorer)
    requires forall i :: 0 <= i < |kb.moods| ==> kb.moods[i].0 != GreetingMood
    ensures Classifier.DetectMood(kb, ratio, "think") != GreetingMood
  {
    assert Lower("think") == "think";
    ThinkHasNoGreetingToken();
    if !NegatedPositive("think") {
      match FirstMoodHit(kb.moods, ratio, "think") {
        case Some(i) => assert kb.moods[i].0 != GreetingMood;
        case None =>
      }
    }
  }

  /** "think" is a single token, and not one of the greeting words. */
  lemma ThinkHasNoGreetingToken()
    ensures !HasGreetingToken("think")
  {
    assert forall i :: 0 <= i < |"think"| ==> !IsSpace("think"[i]);
    SingleToken("think");
    assert "think" !in Greetings;
  }

  // ---------------------------------------------------------------------------
  // Trigger detection
  // ---------------------------------------------------------------------------

  /**
   * console.py `detect_trigger`, with the user's typed answer to the
   * clarification question given as `choice` (read only when the two best
   * categories are close): the typed name, capitalised, when it names one of
   * the two; otherwise the best category, or "General" when nothing scores.
   */
  method DetectTrigger(triggers: Table, ratio: Scorer, input: string, choice: string) returns (t: string)
    requires |triggers| > 0
    ensures var g := TriggerOf(triggers, ratio, input);
      var c := Lower(Strip(choice));
      && (g.second.Some? && (c == Lower(g.best) || c == Lower(g.second.value)) ==> t == Capitalize(c))
      && (!(g.second.Some? && (c == Lower(g.best) || c == Lower(g.second.value))) ==> t == g.best)
    ensures NoCategoryScores(triggers, ratio, Lower(input)) ==> t == GeneralTrigger
  {
    TriggerPrimary(triggers, ratio, input);
    var scores := ComputeScores(triggers, ratio, Lower(input));
    var ranked := Rank(scores);
    var bestCategory, bestScore := ranked[0].0, ranked[0].1;
    if bestScore < 70 {
      return GeneralTrigger;
    }
    if |ranked| > 1 {
      var secondCategory, secondScore := ranked[1].0, ranked[1].1;
      if Abs(bestScore - secondScore) <= 5 && secondScore >= 70 {
        var c := Lower(Strip(choice));
        if c == Lower(bestCategory) || c == Lower(secondCategory) {
          return Capitalize(c);
        }
      }
    }
    return bestCategory;
  }

  // ---------------------------------------------------------------------------
  // Intensity
  // ---------------------------------------------------------------------------

  /** The console's rating: an integer reply as given, anything else counts as 5. */
  function Rating(reply: string): int {
    match ParseInt(reply)
    case Some(n) => n
    case None => 5
  }

  /** console.py's intensity step: the rating bucketed with no range check. */
  function ConsoleIntensity(reply: string): (r: string)
    ensures IsLevel(r)
    ensures ParseInt(reply).None? ==> r == Medium
    ensures ParseInt(reply).Some? ==>
      var v := ParseInt(reply).value;
      && (r == Low <==> v <= 3)
      && (r == Medium <==> 4 <= v <= 7)
      && (r == High <==> 8 <= v)
  {
    IntensityLevel(Rating(reply))
  }

  /** "11" is High and "0" is Low (no range check); a word counts as 5, Medium. */
  lemma ConsoleIntensityExamples()
    ensures ConsoleIntensity("11") == High
    ensures ConsoleIntensity("0") == Low
    ensures ConsoleIntensity("ten") == Medium
  {
    ParseDecimal(11);
    assert Decimal(11) == Decimal(1) + [DigitChar(1)] == "11";
    ParseDecimal(0);
    assert Decimal(0) == "0";
    assert Strip("ten") == "ten" by {
      assert StripLeading("ten") == "ten";
      assert StripTrailing("ten") == "ten";
    }
  }

  // ---------------------------------------------------------------------------
  // The suggestion loop
  // ---------------------------------------------------------------------------

  const NoMoodAdvice: string := "I don\U{2019}t have specific advice for this mood, but I\U{2019}m here to listen \U{1F499}"
  const NoIntensityAdvice: string :=
    "I don\U{2019}t have specific advice for this intensity, but I\U{2019}m here to listen \U{1F499}"

  /**
   * One round of the loop as seen from outside: the random draw that picks
   * the suggestion, and the three answers typed after it (does it help, do
   * you feel better, end the chat here). Answers that are not needed are never read.
   */
  datatype Round = Round(roll: nat, helps: string, better: string, endChat: string)

  /** `input(...).strip().lower() == "yes"` */
  predicate Yes(answer: string) {
    Lower(Strip(answer)) == "yes"
  }

  /** The answers that leave the loop: the suggestion helped and the user feels better. */
  predicate Settles(r: Round) {
    Yes(r.helps) && Yes(r.better)
  }

  /** How `suggest_solution` ends. */
  datatype Outcome =
    | NoAdvice(message: string)   // a level of the mapping is missing; nothing is suggested
    | SharedEverything            // every suggestion of the bucket was shown
    | KeepTalking                 // the user feels better and goes on talking
    | EndChat                     // the user feels better and ends the program

  /**
   * Each shown suggestion is the `roll`-th (cyclically) of the bucket's
   * suggestions not shown before it: `random.choice(available)`.
   */
  predicate Drawn(items: seq<string>, shown: seq<string>, rounds: nat -> Round) {
    forall i :: 0 <= i < |shown| ==>
      var available := Unused(items, Elements(shown[..i]));
      |available| > 0 && shown[i] == available[rounds(i).roll % |available|]
  }

  lemma DrawnSnoc(items: seq<string>, shown: seq<string>, rounds: nat -> Round, next: string)
    requires Drawn(items, shown, rounds)
    requires var available := Unused(items, Elements(shown));
      |available| > 0 && next == available[rounds(|shown|).roll % |available|]
    ensures Drawn(items, shown + [next], rounds)
  {
    var longer := shown + [next];
    forall i | 0 <= i < |longer|
      ensures var available := Unused(items, Elements(longer[..i]));
        |available| > 0 && longer[i] == available[rounds(i).roll % |available|]
    {
      if i < |shown| {
        assert longer[..i] == shown[..i];
      } else {
        assert longer[..i] == shown;
      }
    }
  }

  lemma ElementsSnoc(xs: seq<string>, x: string)
    ensures Elements(xs + [x]) == Elements(xs) + {x}
  {
    assert forall y :: y in xs + [x] <==> y in xs || y == x;
  }

  lemma DistinctSnoc(xs: seq<string>, x: string)
    requires Distinct(xs) && x !in Elements(xs)
    ensures Distinct(xs + [x])
  {
  }

  /**
   * Each shown suggestion is what the selection of the chat front end picks
   * with the suggestions shown before it as the used-set and its own roll.
   */
  predicate DrawnInOrder(sol: Solutions, mood: string, intensity: string, trigger: string,
                         shown: seq<string>, rounds: nat -> Round) {
    forall i :: 0 <= i < |shown| ==>
      Select(sol, mood, intensity, trigger, Elements(shown[..i]), rounds(i).roll) == Selection(shown[i], true)
  }

  /** Drawing from the resolved bucket is drawing with the selection of the chat front end. */
  lemma DrawnIsSelect(sol: Solutions, mood: string, intensity: string, trigger: string,
                      shown: seq<string>, rounds: nat -> Round)
    requires Resolve(sol, mood, intensity, trigger).Found?
    requires Drawn(Resolve(sol, mood, intensity, trigger).items, shown, rounds)
    ensures DrawnInOrder(sol, mood, intensity, trigger, shown, rounds)
  {
    var items := Resolve(sol, mood, intensity, trigger).items;
    forall i | 0 <= i < |shown|
      ensures Select(sol, mood, intensity, trigger, Elements(shown[..i]), rounds(i).roll) == Selection(shown[i], true)
    {
      var available := Unused(items, Elements(shown[..i]));
      assert |available| > 0 && shown[i] == available[rounds(i).roll % |available|];
    }
  }

  /** None of the first `n` rounds left the loop. */
  predicate Unsettled(rounds: nat -> Round, n: nat) {
    forall i: nat :: i < n ==> !Settles(rounds(i))
  }

  lemma UnsettledSnoc(rounds: nat -> Round, n: nat)
    requires Unsettled(rounds, n) && !Settles(rounds(n))
    ensures Unsettled(rounds, n + 1)
  {
  }

  /**
   * console.py `suggest_solution`: the lookup with its three fallback
   * messages, then the suggestion loop on the resolved bucket. Each shown
   * suggestion is exactly what the chat front end's selection would pick with
   * the suggestions shown before it as the used-set, so none repeats.
   */
  method SuggestSolution(sol: Solutions, mood: string, intensity: string, trigger: string, rounds: nat -> Round)
    returns (shown: seq<string>, outcome: Outcome)
    ensures var look := Resolve(sol, mood, intensity, trigger);
      && (look.MissingMood? ==> outcome == NoAdvice(NoMoodAdvice))
      && (look.MissingIntensity? ==> outcome == NoAdvice(NoIntensityAdvice))
      && (look.MissingTrigger? ==> outcome == NoAdvice(NoAdviceMessage))
      && (look.Found? ==> !outcome.NoAdvice? && |shown| <= |look.items|)
    ensures outcome.NoAdvice? ==> shown == []
    ensures DrawnInOrder(sol, mood, intensity, trigger, shown, rounds)
    ensures Distinct(shown)
    ensures outcome == SharedEverything ==>
      && Unsettled(rounds, |shown|)
      && (forall s :: s in Resolve(sol, mood, intensity, trigger).items ==> s in shown)
    ensures outcome == KeepTalking || outcome == EndChat ==>
      && |shown| > 0
      && Unsettled(rounds, |shown| - 1)
      && Settles(rounds(|shown| - 1))
      && (outcome == EndChat <==> Yes(rounds(|shown| - 1).endChat))
  {
    if mood !in sol {
      return [], NoAdvice(NoMoodAdvice);
    }
    if intensity !in sol[mood] {
      return [], NoAdvice(NoIntensityAdvice);
    }
    var moodSolutions := sol[mood][intensity];
    var key := Capitalize(trigger);
    if key !in moodSolutions {
      if GeneralTrigger in moodSolutions {
        key := GeneralTrigger;
      } else {
        return [], NoAdvice(NoAdviceMessage);
      }
    }
    var items := moodSolutions[key];
    assert Resolve(sol, mood, intensity, trigger) == Found(key, items);
    shown, outcome := OfferUntilSettled(items, rounds);
    DrawnIsSelect(sol, mood, intensity, trigger, shown, rounds);
  }

  /**
   * The `while True` loop of console.py `suggest_solution` on one bucket: draw
   * an unshown suggestion, record it, and read the answers, until the bucket
   * is exhausted or the user feels better.
   */
  method OfferUntilSettled(items: seq<string>, rounds: nat -> Round) returns (shown: seq<string>, outcome: Outcome)
    ensures !outcome.NoAdvice?
    ensures Drawn(items, shown, rounds) && Distinct(shown) && |shown| <= |items|
    ensures forall s :: s in shown ==> s in items
    ensures outcome == SharedEverything ==> Unsettled(rounds, |shown|) && forall s :: s in items ==> s in shown
    ensures outcome == KeepTalking || outcome == EndChat ==>
      && |shown| > 0
      && Unsettled(rounds, |shown| - 1)
      && Settles(rounds(|shown| - 1))
      && (outcome == EndChat <==> Yes(rounds(|shown| - 1).endChat))
  {
    shown := [];
    var used: set<string> := {};
    while true
      invariant Offered(items, shown, used, rounds)
      invariant Unsettled(rounds, |shown|)
      invariant |shown| <= |items|
      decreases |items| - |shown|
    {
      var available := Unused(items, used);
      if available == [] {
        OfferedBound(items, shown, used, rounds);
        return shown, SharedEverything;
      }
      var suggestion := available[rounds(|shown|).roll % |available|];
      OfferStep(items, shown, used, rounds, suggestion);
      used := used + {suggestion};
      shown := shown + [suggestion];
      var answers := rounds(|shown| - 1);
      if Yes(answers.helps) {
        if Yes(answers.better) {
          OfferedBound(items, shown, used, rounds);
          if Yes(answers.endChat) {
            return shown, EndChat;
          } else {
            return shown, KeepTalking;
          }
        }
      }
      UnsettledSnoc(rounds, |shown| - 1);
    }
  }

  /** The loop invariant of the suggestion loop: `used` records exactly the shown suggestions, drawn from `items`. */
  predicate Offered(items: seq<string>, shown: seq<string>, used: set<string>, rounds: nat -> Round) {
    && used == Elements(shown)
    && (forall s :: s in used ==> s in items)
    && Distinct(shown)
    && Drawn(items, shown, rounds)
  }

  /** One round of the loop keeps the invariant; the bucket had a suggestion left to show. */
  lemma OfferStep(items: seq<string>, shown: seq<string>, used: set<string>, rounds: nat -> Round, next: string)
    requires Offered(items, shown, used, rounds)
    requires var available := Unused(items, used);
      |available| > 0 && next == available[rounds(|shown|).roll % |available|]
    ensures Offered(items, shown + [next], used + {next}, rounds)
    ensures |shown| < |items|
  {
    var available := Unused(items, used);
    assert next in available;
    DrawnSnoc(items, shown, rounds, next);
    ElementsSnoc(shown, next);
    DistinctSnoc(shown, next);
    BoundShown(shown + [next], items);
  }

  /** What the invariant gives when the loop stops. */
  lemma OfferedBound(items: seq<string>, shown: seq<string>, used: set<string>, rounds: nat -> Round)
    requires Offered(items, shown, used, rounds)
    ensures Drawn(items, shown, rounds) && Distinct(shown) && |shown| <= |items|
    ensures forall s :: s in shown ==> s in items
    ensures Unused(items, used) == [] ==> forall s :: s in items ==> s in shown
  {
    BoundShown(shown, items);
  }

  /** Distinct suggestions drawn from a bucket are no more than the bucket holds. */
  lemma BoundShown(shown: seq<string>, items: seq<string>)
    requires Distinct(shown)
    requires forall s :: s in shown ==> s in items
    ensures |shown| <= |items|
  {
    DistinctElements(shown);
    ElementsBound(items);
    SubsetCard(Elements(shown), Elements(items));
  }
}
