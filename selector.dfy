/**
 * Solution selection (app.py `get_solution`; the lookup is shared with the
 * console's `suggest_solution`): resolve mood -> intensity -> trigger, with a
 * fallback to the "General" bucket, then draw a suggestion that has not been
 * shown yet.
 */
module Selector {
  import opened Text
  import opened Knowledge

  const NoAdviceMessage: string := "I don\U{2019}t have specific advice for this, but I\U{2019}m here to listen \U{1F499}"
  const ExhaustedMessage: string := "I\U{2019}ve shared everything I had for this. Maybe we can just talk more \U{1F499}"

  /** The outcome of the lookup: a suggestion bucket, or which level of the mapping is missing. */
  datatype Lookup =
    | Found(key: string, items: seq<string>)
    | MissingMood
    | MissingIntensity
    | MissingTrigger

  /**
   * The bucket for (mood, intensity, trigger): the capitalised trigger's list,
   * else the "General" list of the same mood and intensity.
   */
  function Resolve(sol: Solutions, mood: string, intensity: string, trigger: string): (r: Lookup)
    ensures r.MissingMood? <==> mood !in sol
    ensures r.MissingIntensity? <==> mood in sol && intensity !in sol[mood]
    ensures r.MissingTrigger? <==>
      mood in sol && intensity in sol[mood]
      && Capitalize(trigger) !in sol[mood][intensity] && GeneralTrigger !in sol[mood][intensity]
    ensures r.Found? ==> && r.key in sol[mood][intensity]
                         && r.items == sol[mood][intensity][r.key]
                         && (Capitalize(trigger) in sol[mood][intensity] ==> r.key == Capitalize(trigger))
                         && (Capitalize(trigger) !in sol[mood][intensity] ==> r.key == GeneralTrigger)
  {
    if mood !in sol || intensity !in sol[mood] then
      if mood !in sol then MissingMood else MissingIntensity
    else
      var bucket := sol[mood][intensity];
      var key := Capitalize(trigger);
      if key !in bucket && GeneralTrigger in bucket then Found(GeneralTrigger, bucket[GeneralTrigger])
      else if key !in bucket then MissingTrigger
      else Found(key, bucket[key])
  }

  /** `[s for s in items if s not in used]` */
  function Unused(items: seq<string>, used: set<string>): (r: seq<string>)
    ensures forall s :: s in r <==> s in items && s !in used
    ensures |r| <= |items|
  {
    if items == [] then []
    else (if items[0] in used then [] else [items[0]]) + Unused(items[1..], used)
  }

  /** The text `get_solution` returns and whether it is a suggestion. */
  datatype Selection = Selection(text: string, found: bool)

  /**
   * app.py `get_solution` with the random draw given as `roll`: a suggestion of
   * the resolved bucket not in `used`, or a fallback message with `found` false.
   */
  function Select(sol: Solutions, mood: string, intensity: string, trigger: string,
                  used: set<string>, roll: nat): (r: Selection)
    ensures var look := Resolve(sol, mood, intensity, trigger);
      && (r.found <==> look.Found? && exists s :: s in look.items && s !in used)
      && (r.found ==> r.text in look.items && r.text !in used)
      && (!r.found ==> r.text == if look.Found? then ExhaustedMessage else NoAdviceMessage)
  {
    match Resolve(sol, mood, intensity, trigger)
    case Found(_, items) =>
      var available := Unused(items, used);
      if available == [] then Selection(ExhaustedMessage, false)
      else
        var pick := available[roll % |available|];
        assert pick in available;
        Selection(pick, true)
    case _ => Selection(NoAdviceMessage, false)
  }

  /** Once nothing is left to show, every further draw fails the same way, whatever the roll. */
  lemma ExhaustedStaysExhausted(sol: Solutions, mood: string, intensity: string, trigger: string,
                                used: set<string>, roll: nat, roll': nat)
    requires !Select(sol, mood, intensity, trigger, used, roll).found
    ensures Select(sol, mood, intensity, trigger, used, roll') == Select(sol, mood, intensity, trigger, used, roll)
  {
  }

  /** With an empty used-set (a fresh or reset session), a non-empty bucket always yields a suggestion. */
  lemma FreshSessionFinds(sol: Solutions, mood: string, intensity: string, trigger: string, roll: nat)
    requires Resolve(sol, mood, intensity, trigger).Found?
    requires |Resolve(sol, mood, intensity, trigger).items| > 0
    ensures Select(sol, mood, intensity, trigger, {}, roll).found
  {
    var items := Resolve(sol, mood, intensity, trigger).items;
    assert items[0] in items && items[0] !in {};
  }

  // ---------------------------------------------------------------------------
  // Repeated selection within one session
  // ---------------------------------------------------------------------------

  /** The suggestions shown by successive calls with the given rolls, each call adding its pick to the used-set. */
  function Shown(sol: Solutions, mood: string, intensity: string, trigger: string,
                 used: set<string>, rolls: seq<nat>): seq<string>
    decreases |rolls|
  {
    if rolls == [] then []
    else
      var sel := Select(sol, mood, intensity, trigger, used, rolls[0]);
      if sel.found then [sel.text] + Shown(sol, mood, intensity, trigger, used + {sel.text}, rolls[1..])
      else Shown(sol, mood, intensity, trigger, used, rolls[1..])
  }

  predicate Distinct(xs: seq<string>) {
    forall i, j :: 0 <= i < j < |xs| ==> xs[i] != xs[j]
  }

  /**
   * `shown` holds distinct suggestions of the resolved bucket, none of them in
   * `used` (and is empty when no bucket resolves).
   */
  predicate FreshPicks(shown: seq<string>, look: Lookup, used: set<string>) {
    && Distinct(shown)
    && forall k :: 0 <= k < |shown| ==> look.Found? && shown[k] in look.items && shown[k] !in used
  }

  /**
   * Successive calls never show a suggestion twice, never show one that was
   * already used, and only show suggestions of the resolved bucket.
   */
  lemma {:induction false} ShownNeverRepeats(sol: Solutions, mood: string, intensity: string, trigger: string,
                                             used: set<string>, rolls: seq<nat>)
    ensures FreshPicks(Shown(sol, mood, intensity, trigger, used, rolls), Resolve(sol, mood, intensity, trigger), used)
    decreases |rolls|
  {
    if rolls != [] {
      var look := Resolve(sol, mood, intensity, trigger);
      var sel := Select(sol, mood, intensity, trigger, used, rolls[0]);
      if sel.found {
        var rest := Shown(sol, mood, intensity, trigger, used + {sel.text}, rolls[1..]);
        ShownNeverRepeats(sol, mood, intensity, trigger, used + {sel.text}, rolls[1..]);
        assert Shown(sol, mood, intensity, trigger, used, rolls) == [sel.text] + rest;
        PrependFresh(sel.text, rest, look, used);
      } else {
        ShownNeverRepeats(sol, mood, intensity, trigger, used, rolls[1..]);
        assert Shown(sol, mood, intensity, trigger, used, rolls) == Shown(sol, mood, intensity, trigger, used, rolls[1..]);
      }
    }
  }

  /** A fresh pick of the bucket in front of fresh picks that avoid it. */
  lemma PrependFresh(x: string, rest: seq<string>, look: Lookup, used: set<string>)
    requires look.Found? && x in look.items && x !in used
    requires FreshPicks(rest, look, used + {x})
    ensures FreshPicks([x] + rest, look, used)
  {
    var xs := [x] + rest;
    forall k | 0 < k < |xs|
      ensures xs[k] == rest[k - 1]
    {
    }
  }

  function Elements(xs: seq<string>): set<string> {
    set x | x in xs
  }

  lemma {:induction false} DistinctElements(xs: seq<string>)
    requires Distinct(xs)
    ensures |Elements(xs)| == |xs|
  {
    if xs != [] {
      DistinctElements(xs[1..]);
      assert Elements(xs) == {xs[0]} + Elements(xs[1..]);
      assert xs[0] !in Elements(xs[1..]);
    }
  }

  lemma {:induction false} ElementsBound(xs: seq<string>)
    ensures |Elements(xs)| <= |xs|
  {
    if xs != [] {
      ElementsBound(xs[1..]);
      assert Elements(xs) == {xs[0]} + Elements(xs[1..]);
    }
  }

  lemma SubsetCard(a: set<string>, b: set<string>)
    requires a <= b
    ensures |a| <= |b|
  {
    assert b == a + (b - a);
  }

  /** A bucket of n suggestions yields at most n successful selections per session. */
  lemma ShownBounded(sol: Solutions, mood: string, intensity: string, trigger: string,
                     used: set<string>, rolls: seq<nat>)
    requires Resolve(sol, mood, intensity, trigger).Found?
    ensures |Shown(sol, mood, intensity, trigger, used, rolls)| <= |Resolve(sol, mood, intensity, trigger).items|
  {
    var shown := Shown(sol, mood, intensity, trigger, used, rolls);
    var items := Resolve(sol, mood, intensity, trigger).items;
    ShownNeverRepeats(sol, mood, intensity, trigger, used, rolls);
    DistinctElements(shown);
    ElementsBound(items);
    SubsetCard(Elements(shown), Elements(items));
  }
}
