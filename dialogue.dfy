/**
 * The dialogue controller of the chat front end (app.py): a session whose
 * fields the stage dispatch updates turn by turn, and the reset performed by
 * "Start New Chat".
 */
module Dialogue {
  import opened Wrappers
  import opened Text
  import opened Knowledge
  import opened Classifier
  import opened Selector

  /** The eight stages of the conversation. */
  datatype Stage =
    | AwaitingInitialInput
    | AwaitingMoodConfirmation
    | AwaitingIntensity
    | AwaitingTrigger
    | AwaitingTriggerClarification
    | AwaitingSolutionFeedback
    | AwaitingNextStep
    | ConversationEnd
  {
    /** The stage string the chat front end stores. */
    function Name(): string {
      match this
      case AwaitingInitialInput => "AWAITING_INITIAL_INPUT"
      case AwaitingMoodConfirmation => "AWAITING_MOOD_CONFIRMATION"
      case AwaitingIntensity => "AWAITING_INTENSITY"
      case AwaitingTrigger => "AWAITING_TRIGGER"
      case AwaitingTriggerClarification => "AWAITING_TRIGGER_CLARIFICATION"
      case AwaitingSolutionFeedback => "AWAITING_SOLUTION_FEEDBACK"
      case AwaitingNextStep => "AWAITING_NEXT_STEP"
      case ConversationEnd => "CONVERSATION_END"
    }

    /** Stages reached only after a valid intensity was given. */
    predicate IntensityKnown() {
      !(AwaitingInitialInput? || AwaitingMoodConfirmation? || AwaitingIntensity?)
    }

    /** Stages reached only after a first call to the solution selector. */
    predicate Suggesting() {
      AwaitingSolutionFeedback? || AwaitingNextStep? || ConversationEnd?
    }
  }

  /** Distinct stages carry distinct stage strings. */
  lemma StageNamesDistinct(a: Stage, b: Stage)
    ensures a.Name() == b.Name() ==> a == b
  {
  }

  datatype Role = User | Assistant

  /** One transcript entry. */
  datatype Message = Message(role: Role, content: string)

  /** `user_trigger`: a resolved category, or the pair awaiting clarification. */
  datatype TriggerSlot = Resolved(name: string) | Pending(first: string, second: string)

  const Welcome: string := "I'm here to listen and help you navigate your feelings. What's on your mind?"
  const Restart: string := "Of course. Let's talk. How are you feeling?"
  const GreetingReplies: seq<string> := [
    "Hey there! \U{1F60A} What\U{2019}s on your mind?",
    "Hello friend \U{1F499} How\U{2019}s your day going?"]
  const ThanksForClarifying: string := "Thanks for clarifying \U{1F499} Tell me more about how you\U{2019}re feeling."
  const AskTrigger: string := "What do you think is triggering this? (e.g., work, study, relationships, health)"
  const Reprompt: string := "Please provide a number between 1 and 10."
  const GladToHear: string :=
    "I'm glad to hear that! Would you like to try another suggestion or end our chat for now? (type 'another' or 'end')"
  const SharedEverythingEnd: string :=
    "I\U{2019}ve shared everything I had for this. We can end here, or just talk more if you like. \U{1F499}"
  const OutOfSuggestions: string :=
    "I\U{2019}m out of new suggestions for this topic. I hope what we\U{2019}ve discussed was helpful. Take care. \U{1F499}"
  const Farewell: string := "Take care! I\U{2019}ll be here whenever you need me \U{1F338}"

  function ConfirmMoodPrompt(mood: string): string {
    "I sense you might be feeling **" + mood + "**. Is that right? (yes/no)"
  }

  function AskIntensity(mood: string): string {
    "On a scale of 1\U{2013}10, how **" + mood + "** do you feel right now?"
  }

  function AskWhichTrigger(first: string, second: string): string {
    "It sounds like this could be about **" + first + "** or **" + second + "**. Which one fits better?"
  }

  function Summary(mood: string, intensity: string, trigger: string): string {
    "Got it. You're feeling **" + mood + "** at a **" + intensity + "** intensity, "
      + "and it seems to be triggered by **" + Lower(trigger) + "**."
  }

  /** `generate_summary_and_solution`'s reply for a given selection. */
  function SummaryReply(summary: string, sel: Selection): string {
    if sel.found then summary + "\n\nHere is a suggestion for you:\n\n> " + sel.text + "\n\nDoes this help at all? (yes/no)"
    else summary + "\n\nUnfortunately, I don't have a specific suggestion for this right now, but I'm here to listen. \U{1F499}"
  }

  function TryAgainReply(suggestion: string): string {
    "Okay, let's try something else.\n\n> " + suggestion + "\n\nHow about this one? Does this help? (yes/no)"
  }

  function HereYouGoReply(suggestion: string): string {
    "Here you go:\n\n> " + suggestion + "\n\nDoes this help at all? (yes/no)"
  }

  /** The used-set after a selection: the pick is recorded when one was found. */
  function Grown(used: set<string>, sel: Selection): set<string> {
    if sel.found then used + {sel.text} else used
  }

  /**
   * The intensity step: an integer reply from 1 to 10 yields its bucket; any
   * other reply (not an integer, or out of range) yields nothing and is asked again.
   */
  function IntensityReading(input: string): (r: Option<string>)
    ensures r.Some? <==> ParseInt(input).Some? && 1 <= ParseInt(input).value <= 10
    ensures r.Some? ==> IsLevel(r.value) && r.value == IntensityLevel(ParseInt(input).value)
  {
    match ParseInt(input)
    case Some(v) => if 1 <= v <= 10 then Some(IntensityLevel(v)) else None
    case None => None
  }

  /** "2" is a Low intensity; "11" and "0" are refused; so is a word. */
  lemma IntensityExamples()
    ensures IntensityReading("2") == Some(Low)
    ensures IntensityReading("11") == None
    ensures IntensityReading("0") == None
    ensures IntensityReading("8") == Some(High)
  {
    ParseDecimal(2);
    assert Decimal(2) == "2";
    ParseDecimal(11);
    assert Decimal(11) == Decimal(1) + [DigitChar(1)] == "11";
    ParseDecimal(0);
    assert Decimal(0) == "0";
    ParseDecimal(8);
    assert Decimal(8) == "8";
  }

  /** The clarification step: the first candidate named (as a substring) in the reply, else "General". */
  function Clarify(first: string, second: string, input: string): (r: string)
    ensures r == first || r == second || r == GeneralTrigger
    ensures Contains(Lower(input), Lower(first)) ==> r == first
    ensures !Contains(Lower(input), Lower(first)) && Contains(Lower(input), Lower(second)) ==> r == second
    ensures !Contains(Lower(input), Lower(first)) && !Contains(Lower(input), Lower(second)) ==> r == GeneralTrigger
  {
    if Contains(Lower(input), Lower(first)) then first
    else if Contains(Lower(input), Lower(second)) then second
    else GeneralTrigger
  }

  /** Python's truth value of an optional category name: `None` and the empty name are false. */
  predicate Truthy(name: Option<string>) {
    name.Some? && name.value != ""
  }

  /** The suggestions recorded so far all come from the resolved bucket (none when there is no bucket). */
  predicate UsedFrom(look: Lookup, used: set<string>) {
    if look.Found? then forall s :: s in used ==> s in look.items else used == {}
  }

  /** The part of a session the stage dispatch reads and writes, as a value. */
  datatype Snapshot = Snapshot(stage: Stage, mood: string, intensity: string, trigger: TriggerSlot, used: set<string>)

  /** One conversation: `st.session_state` of the chat front end. */
  class Session {
    const kb: KnowledgeBase
    const ratio: Scorer
    var stage: Stage
    var detectedMood: string
    var intensity: string
    var trigger: TriggerSlot
    var usedSolutions: set<string>
    var messages: seq<Message>

    ghost function Now(): Snapshot
      reads this`stage, this`detectedMood, this`intensity, this`trigger, this`usedSolutions
    {
      Snapshot(stage, detectedMood, intensity, trigger, usedSolutions)
    }

    /**
     * The session invariant: the pending pair exists exactly while
     * clarification is awaited, a confirmed mood is one the knowledge base
     * can confirm, a recorded intensity is a bucket, and every recorded
     * suggestion comes from the bucket the session resolves to.
     */
    ghost predicate Valid()
      reads this`stage, this`detectedMood, this`intensity, this`trigger, this`usedSolutions
    {
      && WellFormed(kb)
      && (stage.AwaitingTriggerClarification? <==> trigger.Pending?)
      && (!stage.AwaitingInitialInput? ==> Confirmable(kb, detectedMood))
      && (stage.IntensityKnown() ==> IsLevel(intensity))
      && (!stage.Suggesting() ==> usedSolutions == {})
      && (stage.Suggesting() ==>
            trigger.Resolved? && UsedFrom(Resolve(kb.solutions, detectedMood, intensity, trigger.name), usedSolutions))
    }

    /** The state the chat front end creates on its first run. */
    constructor (kb: KnowledgeBase, ratio: Scorer)
      requires WellFormed(kb)
      ensures Valid() && this.kb == kb && this.ratio == ratio
      ensures stage == AwaitingInitialInput && detectedMood == "" && intensity == ""
      ensures trigger == Resolved("") && usedSolutions == {}
      ensures messages == [Message(Assistant, Welcome)]
    {
      this.kb := kb;
      this.ratio := ratio;
      stage := AwaitingInitialInput;
      detectedMood := "";
      intensity := "";
      trigger := Resolved("");
      usedSolutions := {};
      messages := [Message(Assistant, Welcome)];
    }

    /** "Start New Chat", offered once the conversation has ended: everything is reset. */
    method StartNewChat()
      requires Valid() && stage == ConversationEnd
      modifies this
      ensures Valid()
      ensures stage == AwaitingInitialInput && detectedMood == "" && intensity == ""
      ensures trigger == Resolved("") && usedSolutions == {}
      ensures messages == [Message(Assistant, Restart)]
    {
      messages := [Message(Assistant, Restart)];
      stage := AwaitingInitialInput;
      detectedMood := "";
      intensity := "";
      trigger := Resolved("");
      usedSolutions := {};
    }

    /** `get_solution`: select from the bucket and record the pick in the session's used-set. */
    method GetSolution(mood: string, level: string, topic: string, roll: nat) returns (text: string, found: bool)
      modifies this`usedSolutions
      ensures var sel := Select(kb.solutions, mood, level, topic, old(usedSolutions), roll);
        text == sel.text && found == sel.found && usedSolutions == Grown(old(usedSolutions), sel)
      ensures found ==> text !in old(usedSolutions) && usedSolutions == old(usedSolutions) + {text}
      ensures !found ==> usedSolutions == old(usedSolutions)
    {
      var sel := Select(kb.solutions, mood, level, topic, usedSolutions, roll);
      text, found := sel.text, sel.found;
      if found {
        usedSolutions := usedSolutions + {text};
      }
    }

    /** The state and reply after `generate_summary_and_solution` ran with the used-set `before`. */
    predicate SummaryDone(after: Snapshot, before: set<string>, roll: nat, reply: string) {
      && after.trigger.Resolved?
      && var sel := Select(kb.solutions, after.mood, after.intensity, after.trigger.name, before, roll);
      && reply == SummaryReply(Summary(after.mood, after.intensity, after.trigger.name), sel)
      && after.stage == (if sel.found then AwaitingSolutionFeedback else ConversationEnd)
      && after.used == Grown(before, sel)
    }

    /** `generate_summary_and_solution`: summarise, fetch a suggestion, and move on or end. */
    method SummaryAndSolution(roll: nat) returns (response: string)
      requires trigger.Resolved?
      modifies this`usedSolutions, this`stage
      ensures SummaryDone(Now(), old(usedSolutions), roll, response)
    {
      var suggestion, success := GetSolution(detectedMood, intensity, trigger.name, roll);
      response := SummaryReply(Summary(detectedMood, intensity, trigger.name), Selection(suggestion, success));
      stage := if success then AwaitingSolutionFeedback else ConversationEnd;
    }

    /**
     * AWAITING_INITIAL_INPUT: a greeting or an unrecognised message gets a
     * canned reply and the stage stays; a recognised mood is remembered and
     * put to the user for confirmation.
     */
    predicate InitialInputDone(s0: Snapshot, s1: Snapshot, input: string, roll: nat, reply: string) {
      var mood := DetectMood(kb, ratio, input);
      if mood == GreetingMood then
        s1 == s0 && reply == GreetingReplies[roll % |GreetingReplies|]
      else if mood == UnknownMood then
        && s1 == s0
        && UnknownMood in kb.responses && |kb.responses[UnknownMood]| > 0
        && reply == kb.responses[UnknownMood][roll % |kb.responses[UnknownMood]|]
      else
        s1 == s0.(stage := AwaitingMoodConfirmation, mood := mood) && reply == ConfirmMoodPrompt(mood)
    }

    method HandleInitialInput(input: string, roll: nat) returns (reply: string)
      requires Valid() && stage == AwaitingInitialInput
      modifies this`stage, this`detectedMood
      ensures Valid() && InitialInputDone(old(Now()), Now(), input, roll, reply)
    {
      var mood := DetectMood(kb, ratio, input);
      if mood == GreetingMood {
        reply := GreetingReplies[roll % |GreetingReplies|];
      } else if mood == UnknownMood {
        var fallbacks := kb.responses[UnknownMood];
        reply := fallbacks[roll % |fallbacks|];
      } else {
        detectedMood := mood;
        reply := ConfirmMoodPrompt(mood);
        stage := AwaitingMoodConfirmation;
      }
    }

    /** AWAITING_MOOD_CONFIRMATION: a reply containing "yes" leads on to the intensity; anything else starts over. */
    predicate MoodConfirmationDone(s0: Snapshot, s1: Snapshot, input: string, reply: string) {
      if Contains(Lower(input), "yes") then
        s1 == s0.(stage := AwaitingIntensity) && reply == AskIntensity(s0.mood)
      else
        s1 == s0.(stage := AwaitingInitialInput) && reply == ThanksForClarifying
    }

    method HandleMoodConfirmation(input: string) returns (reply: string)
      requires Valid() && stage == AwaitingMoodConfirmation
      modifies this`stage
      ensures Valid() && MoodConfirmationDone(old(Now()), Now(), input, reply)
    {
      if Contains(Lower(input), "yes") {
        reply := AskIntensity(detectedMood);
        stage := AwaitingIntensity;
      } else {
        reply := ThanksForClarifying;
        stage := AwaitingInitialInput;
      }
    }

    /** AWAITING_INTENSITY: an integer from 1 to 10 is bucketed and the trigger is asked for; otherwise ask again. */
    predicate IntensityDone(s0: Snapshot, s1: Snapshot, input: string, reply: string) {
      match IntensityReading(input)
      case Some(level) => s1 == s0.(stage := AwaitingTrigger, intensity := level) && reply == AskTrigger
      case None => s1 == s0 && reply == Reprompt
    }

    method HandleIntensity(input: string) returns (reply: string)
      requires Valid() && stage == AwaitingIntensity
      modifies this`stage, this`intensity
      ensures Valid() && IntensityDone(old(Now()), Now(), input, reply)
    {
      match ParseInt(input)
      case Some(v) =>
        if 1 <= v <= 10 {
          if v <= 3 {
            intensity := Low;
          } else if v <= 7 {
            intensity := Medium;
          } else {
            intensity := High;
          }
          reply := AskTrigger;
          stage := AwaitingTrigger;
        } else {
          reply := Reprompt;
        }
      case None =>
        reply := Reprompt;
    }

    /**
     * AWAITING_TRIGGER: two close candidates are put to the user (unless the
     * second is the empty name, which Python's `if` reads as false); otherwise
     * the best category is taken and the summary with a first suggestion follows.
     */
    predicate TriggerDone(s0: Snapshot, s1: Snapshot, input: string, roll: nat, reply: string) {
      && |kb.triggers| > 0
      && s1.mood == s0.mood && s1.intensity == s0.intensity
      && var g := TriggerOf(kb.triggers, ratio, input);
      if Truthy(g.second) then
        && s1 == s0.(stage := AwaitingTriggerClarification, trigger := Pending(g.best, g.second.value))
        && reply == AskWhichTrigger(g.best, g.second.value)
      else s1.trigger == Resolved(g.best) && SummaryDone(s1, s0.used, roll, reply)
    }

    method HandleTrigger(input: string, roll: nat) returns (reply: string)
      requires Valid() && stage == AwaitingTrigger
      modifies this`stage, this`trigger, this`usedSolutions
      ensures Valid() && TriggerDone(old(Now()), Now(), input, roll, reply)
    {
      var guess := DetectTrigger(kb.triggers, ratio, input);
      if Truthy(guess.second) {
        trigger := Pending(guess.best, guess.second.value);
        reply := AskWhichTrigger(guess.best, guess.second.value);
        stage := AwaitingTriggerClarification;
      } else {
        trigger := Resolved(guess.best);
        reply := SummaryAndSolution(roll);
      }
    }

    /** AWAITING_TRIGGER_CLARIFICATION: resolve the pair from the reply, then summarise and suggest. */
    predicate TriggerClarificationDone(s0: Snapshot, s1: Snapshot, input: string, roll: nat, reply: string) {
      && s0.trigger.Pending?
      && s1.mood == s0.mood && s1.intensity == s0.intensity
      && s1.trigger == Resolved(Clarify(s0.trigger.first, s0.trigger.second, input))
      && SummaryDone(s1, s0.used, roll, reply)
    }

    method HandleTriggerClarification(input: string, roll: nat) returns (reply: string)
      requires Valid() && stage == AwaitingTriggerClarification
      modifies this`stage, this`trigger, this`usedSolutions
      ensures Valid() && TriggerClarificationDone(old(Now()), Now(), input, roll, reply)
    {
      var first, second := trigger.first, trigger.second;
      if Contains(Lower(input), Lower(first)) {
        trigger := Resolved(first);
      } else if Contains(Lower(input), Lower(second)) {
        trigger := Resolved(second);
      } else {
        trigger := Resolved(GeneralTrigger);
      }
      reply := SummaryAndSolution(roll);
    }

    /** The state after a further suggestion `sel` was looked for: recorded when found, the end when not. */
    static function AfterRetry(s0: Snapshot, sel: Selection): Snapshot {
      s0.(stage := if sel.found then AwaitingSolutionFeedback else ConversationEnd, used := Grown(s0.used, sel))
    }

    /**
     * AWAITING_SOLUTION_FEEDBACK: "yes" offers another suggestion or the end;
     * anything else tries an unused suggestion, ending when none is left.
     */
    predicate SolutionFeedbackDone(s0: Snapshot, s1: Snapshot, input: string, roll: nat, reply: string) {
      if Contains(Lower(input), "yes") then
        s1 == s0.(stage := AwaitingNextStep) && reply == GladToHear
      else
        && s0.trigger.Resolved?
        && var sel := Select(kb.solutions, s0.mood, s0.intensity, s0.trigger.name, s0.used, roll);
        && s1 == AfterRetry(s0, sel)
        && reply == (if sel.found then TryAgainReply(sel.text) else SharedEverythingEnd)
    }

    method HandleSolutionFeedback(input: string, roll: nat) returns (reply: string)
      requires Valid() && stage == AwaitingSolutionFeedback
      modifies this`stage, this`usedSolutions
      ensures Valid() && SolutionFeedbackDone(old(Now()), Now(), input, roll, reply)
    {
      if Contains(Lower(input), "yes") {
        reply := GladToHear;
        stage := AwaitingNextStep;
      } else {
        var suggestion, success := GetSolution(detectedMood, intensity, trigger.name, roll);
        if success {
          reply := TryAgainReply(suggestion);
          stage := AwaitingSolutionFeedback;
        } else {
          reply := SharedEverythingEnd;
          stage := ConversationEnd;
        }
      }
    }

    /** AWAITING_NEXT_STEP: "another" tries an unused suggestion; anything else says goodbye. */
    predicate NextStepDone(s0: Snapshot, s1: Snapshot, input: string, roll: nat, reply: string) {
      if Contains(Lower(input), "another") then
        && s0.trigger.Resolved?
        && var sel := Select(kb.solutions, s0.mood, s0.intensity, s0.trigger.name, s0.used, roll);
        && s1 == AfterRetry(s0, sel)
        && reply == (if sel.found then HereYouGoReply(sel.text) else OutOfSuggestions)
      else
        s1 == s0.(stage := ConversationEnd) && reply == Farewell
    }

    method HandleNextStep(input: string, roll: nat) returns (reply: string)
      requires Valid() && stage == AwaitingNextStep
      modifies this`stage, this`usedSolutions
      ensures Valid() && NextStepDone(old(Now()), Now(), input, roll, reply)
    {
      if Contains(Lower(input), "another") {
        var suggestion, success := GetSolution(detectedMood, intensity, trigger.name, roll);
        if success {
          reply := HereYouGoReply(suggestion);
          stage := AwaitingSolutionFeedback;
        } else {
          reply := OutOfSuggestions;
          stage := ConversationEnd;
        }
      } else {
        reply := Farewell;
        stage := ConversationEnd;
      }
    }

    /**
     * The reply and the new state `s1` are those the handler of the stage of
     * `s0` produces; once the conversation has ended no stage handles a message.
     */
    predicate Responded(s0: Snapshot, s1: Snapshot, input: string, roll: nat, reply: Option<string>) {
      match s0.stage
      case AwaitingInitialInput =>
        reply.Some? && InitialInputDone(s0, s1, input, roll, reply.value)
      case AwaitingMoodConfirmation =>
        reply.Some? && MoodConfirmationDone(s0, s1, input, reply.value)
      case AwaitingIntensity =>
        reply.Some? && IntensityDone(s0, s1, input, reply.value)
      case AwaitingTrigger =>
        reply.Some? && TriggerDone(s0, s1, input, roll, reply.value)
      case AwaitingTriggerClarification =>
        reply.Some? && TriggerClarificationDone(s0, s1, input, roll, reply.value)
      case AwaitingSolutionFeedback =>
        reply.Some? && SolutionFeedbackDone(s0, s1, input, roll, reply.value)
      case AwaitingNextStep =>
        reply.Some? && NextStepDone(s0, s1, input, roll, reply.value)
      case ConversationEnd =>
        reply.None? && s1 == s0
    }

    /**
     * One turn: the user's message is recorded, the current stage handles it,
     * and the reply (if any) is recorded. Random choices use `roll`. The chat
     * input hands over only non-empty messages.
     */
    method Advance(input: string, roll: nat) returns (reply: Option<string>)
      requires Valid() && input != ""
      modifies this
      ensures Valid()
      ensures messages == old(messages) + [Message(User, input)]
                          + (if reply.Some? then [Message(Assistant, reply.value)] else [])
      ensures reply.None? <==> old(stage) == ConversationEnd
      ensures old(usedSolutions) <= usedSolutions
      ensures Responded(old(Now()), Now(), input, roll, reply)
    {
      messages := messages + [Message(User, input)];
      var text: string;
      match stage {
      case AwaitingInitialInput =>
        text := HandleInitialInput(input, roll);
      case AwaitingMoodConfirmation =>
        text := HandleMoodConfirmation(input);
      case AwaitingIntensity =>
        text := HandleIntensity(input);
      case AwaitingTrigger =>
        text := HandleTrigger(input, roll);
      case AwaitingTriggerClarification =>
        text := HandleTriggerClarification(input, roll);
      case AwaitingSolutionFeedback =>
        text := HandleSolutionFeedback(input, roll);
      case AwaitingNextStep =>
        text := HandleNextStep(input, roll);
      case ConversationEnd =>
        return None;
      }
      reply := Some(text);
      messages := messages + [Message(Assistant, text)];
    }
  }
}
