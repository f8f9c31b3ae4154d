# Companion bot dialogue engine — a verified model

The companion bot is a rule-based chat companion. It comes as a Streamlit chat
application (`app.py`) and a terminal variant (`console.py`). This project
models its dialogue engine and proves properties about that model:

- **Text classification.** `detect_mood` maps an utterance to a mood label by
  a fixed precedence: greeting, then a negated positive word ("not good"), then
  the first mood category with a fuzzy keyword hit, then "Unknown".
  `detect_trigger` scores the trigger categories, ranks them with Python's stable
  sort, and may report two close candidates. Both live in module `Classifier`.
- **Solution selection.** `get_solution` looks up mood → intensity → trigger
  and falls back to the "General" bucket. It draws a suggestion not shown
  before and records it. This is modelled in module `Selector` as a pure
  function of the used-set, and as `Session.GetSolution` where the session's
  set is updated in place.
- **The dialogue state machine.** The eight stages of the chat front end form
  the class `Dialogue.Session`. Its fields are the session state (stage, mood,
  intensity, trigger or pending pair, used suggestions, transcript). `Advance`
  handles one user message and `StartNewChat` is the reset button.
- **The terminal variant** lives in module `Console`. It covers:
  - the substring greeting check;
  - the clarification of two close trigger candidates by a typed choice;
  - the intensity default of 5 with no range check;
  - the suggestion loop of `suggest_solution`, with its own local used-set.

Two external facilities are parameters of the model:

- The fuzzy matcher `fuzz.partial_ratio` is the type `Knowledge.Scorer`. It is
  any function from two strings into 0..100.
- Every `random.choice(xs)` is an index given by the caller, as `xs[roll % |xs|]`.
  In the terminal loop, each round's roll and the answers typed after it form
  one `Console.Round`.

The four JSON mappings are the immutable `Knowledge.KnowledgeBase`. The
mappings whose iteration order matters (moods, triggers) are sequences of
pairs.

Modules:

| module | file | contents |
|---|---|---|
| `Wrappers` | wrappers.dfy | `Option` |
| `Text` | text.dfy | ASCII `lower`/`capitalize`, `in` on strings, `split()`, `strip()`, `int()` |
| `Knowledge` | knowledge.dfy | knowledge base, word lists, labels, intensity buckets |
| `Classifier` | classifier.dfy | `detect_mood`, trigger scoring, stable ranking, `detect_trigger` |
| `Selector` | selector.dfy | lookup with fallback, `get_solution` as a function |
| `Dialogue` | dialogue.dfy | the stage machine of `app.py` as class `Session` |
| `Console` | console.dfy | the `console.py` variants |

## Model

| member | source | states |
|---|---|---|
| Text.ContainsIff | app.py:33 | The left-to-right scan that models Python's `needle in hay` holds exactly when the needle occurs at some position. Both directions are proved by induction. |
| Text.Words | app.py:31 | Every token of `split()` is non-empty and contains no whitespace (which tokens come back is stated by `Text.WordsAreRuns`). |
| Text.WordsAreRuns | app.py:31 | A string is a token of `split()` exactly when it is a maximal run of non-whitespace characters, meaning it is non-empty and bounded by whitespace or the ends of the text. Both directions are proved. |
| Text.WordPosition | app.py:31 | Every token of `split()` sits at some position of the text as a maximal non-whitespace run. |
| Text.RunIsWord | app.py:31 | Every maximal non-whitespace run of the text is a token of `split()`. |
| Text.WordsOccur | app.py:31 | Every token of `split()` is a substring of the text. |
| Text.SingleToken | app.py:31 | A non-empty string without whitespace splits into exactly itself. |
| Text.ParseDecimal | app.py:177 | `int()` applied to the decimal rendering of a natural number gives that number back. |
| Knowledge.IntensityLevel | app.py:179-181 | The bucket is Low iff v ≤ 3, Medium iff 4 ≤ v ≤ 7 and High iff v ≥ 8, and it is always one of the three. |
| Classifier.FirstMoodHit | app.py:35-38 | Returns the first mood category, in mapping order, with a keyword scoring above 85. No earlier category has one, and None means no category has one. |
| Classifier.MoodAfterGreeting | app.py:33-39 | A negated positive word gives "Sad / Lonely". Otherwise the label is the first category with a hit, else "Unknown". |
| Classifier.DetectMood | app.py:29-39 | A greeting token wins, then the negated positive, then the first mood hit, then "Unknown". The label is always "Greeting", "Unknown" or a confirmable label. |
| Classifier.CategoryScore | app.py:44-49 | The score is 0 iff no keyword scores above 75. Otherwise it is above 75, is some keyword's score, and is at least every keyword score above 75. |
| Classifier.CategoryScoreOrderFree | app.py:46-49 | Permuting a category's keywords does not change its score. |
| Classifier.ComputeScores | app.py:43-49 | The nested loops produce every category with its score, in mapping order. |
| Classifier.RankSorts | app.py:51 | The ranking is a permutation of the scores and is in descending order. |
| Classifier.RankPeelsFirstMax | app.py:51-52 | The ranking begins with the first entry of highest score, so ties go to the earlier category (stability). The rest is the ranking of the others. |
| Classifier.DetectTrigger | app.py:41-62 | The loop-and-sort method returns exactly the decision `TriggerOf` defines. |
| Classifier.TriggerPrimary | app.py:51-55 | The best score is below 70 iff no category scores, and then the answer is ("General", None). Otherwise the best category is the first of highest score. |
| Classifier.DecideSecond | app.py:57-62 | On distinct names, a second candidate is reported iff the runner-up scores ≥ 70 and within 5 of the best. It is then that runner-up and differs from the best. |
| Classifier.TriggerSecond | app.py:57-62 | For `detect_trigger` on a dictionary of triggers: there is no second candidate with one category. Otherwise a second is reported iff the first highest-scoring remaining category is within 5 and ≥ 70, and it is never the best category. |
| Classifier.TriggerKeywordOrderFree | app.py:44-49 | Reordering the keywords inside categories never changes the trigger decision. |
| Selector.Resolve | app.py:65-72 | A missing mood, a missing intensity, or a missing capitalised trigger without "General" are each reported, iff they occur. Otherwise the bucket is the trigger's own list, or "General" when the trigger is absent. |
| Selector.Unused | app.py:73 | The available list holds exactly the bucket's suggestions not yet used. |
| Selector.Select | app.py:64-78 | A suggestion is found iff the bucket resolves and has an unused entry. It is then an unused entry of the bucket. Otherwise the text is the "shared everything" message when the bucket resolved, and the "no specific advice" message when it did not. |
| Selector.ExhaustedStaysExhausted | app.py:73-75 | Once nothing is found, no draw changes the outcome. |
| Selector.FreshSessionFinds | app.py:73-78 | With nothing used, a non-empty resolved bucket always yields a suggestion. |
| Selector.ShownNeverRepeats | app.py:73-77 | Successive selections that each record their pick never show a suggestion twice. They never show one used before, and only show entries of the bucket. |
| Selector.ShownBounded | app.py:73-77 | Successive selections show at most as many suggestions as the bucket holds. |
| Dialogue.StageNamesDistinct | app.py:154-230 | The eight stage strings are pairwise distinct. |
| Dialogue.IntensityReading | app.py:175-187 | An answer is accepted iff it parses as an integer from 1 to 10. It then yields that integer's bucket; anything else is asked again. |
| Dialogue.IntensityExamples | app.py:176-187 | "2" gives Low and "8" gives High. "0" and "11" are refused. |
| Dialogue.Clarify | app.py:200-203 | The choice is the first candidate, the second, or "General". A reply naming the first candidate (as a substring, ignoring case) selects it. Otherwise a reply naming the second selects the second, and a reply naming neither gives "General". |
| Dialogue.Session.constructor | app.py:106-112 | The session starts at AWAITING_INITIAL_INPUT with empty mood, intensity and trigger, no used suggestions and the welcome message. |
| Dialogue.Session.StartNewChat | app.py:125-131 | After CONVERSATION_END, the reset restores the initial state with the restart message and keeps the session invariant. |
| Dialogue.Session.GetSolution | app.py:64-78 | Returns what `Select` picks. On success the used-set grows by exactly the new suggestion, which was not in it before. Otherwise the used-set is unchanged. |
| Dialogue.Session.SummaryAndSolution | app.py:80-91 | The summary with the first suggestion moves to AWAITING_SOLUTION_FEEDBACK. Without a suggestion it gives the apology and moves to CONVERSATION_END. |
| Dialogue.Session.HandleInitialInput | app.py:154-165 | A greeting or "Unknown" gets a canned reply and the stage stays. A recognised mood is stored and put up for confirmation. |
| Dialogue.Session.HandleMoodConfirmation | app.py:167-173 | A reply containing "yes" asks for the intensity. Anything else thanks the user and returns to the first stage. |
| Dialogue.Session.HandleIntensity | app.py:175-187 | A valid rating stores its bucket and asks for the trigger. Anything else re-prompts with stage and intensity unchanged. |
| Dialogue.Session.HandleTrigger | app.py:189-197 | Two close candidates are stored as a pending pair and put to the user, unless the second is the empty name, which Python's `if` reads as false. Otherwise the best category is stored and the summary with a suggestion follows. |
| Dialogue.Session.HandleTriggerClarification | app.py:199-204 | The pending pair is resolved by the choice, then the summary with a suggestion follows. |
| Dialogue.Session.HandleSolutionFeedback | app.py:206-217 | "yes" asks whether to continue. Anything else offers an unused suggestion, or ends when none is left. |
| Dialogue.Session.HandleNextStep | app.py:219-230 | "another" offers an unused suggestion, or ends when none is left. Anything else says goodbye and ends. |
| Dialogue.Session.Advance | app.py:145-235 | Records the user message, lets the current stage handle it and records the reply. There is no reply exactly at CONVERSATION_END. The used-set only grows, and the session invariant holds after every turn. |
| Console.DetectMood | console.py:28-45 | A greeting substring wins, then the negated positive, then the first mood hit, then "Unknown". |
| Console.TokenGreetingIsSubstring | console.py:32 | A greeting token is also a greeting substring. |
| Console.FrontEndsAgree | console.py:28-45 | The console greets whenever the chat front end does. Without a greeting substring, both front ends give the same label. |
| Console.ThinkIsGreeting | console.py:32-33 | The console classifies "think" as a greeting. |
| Console.ThinkIsNoGreetingByTokens | app.py:31-32 | The token check of the chat front end does not classify "think" as a greeting. |
| Console.DetectTrigger | console.py:48-76 | A typed choice naming one of two close candidates (ignoring case and surrounding space) returns it capitalised. Otherwise it returns the best category, and "General" when nothing scores. |
| Console.ConsoleIntensity | console.py:159-169 | A non-integer reply gives Medium. An integer is bucketed with no range check. |
| Console.ConsoleIntensityExamples | console.py:160-169 | "11" gives High, "0" gives Low and "ten" gives Medium. |
| Console.DrawnIsSelect | console.py:105-110 | Each suggestion drawn by the loop is what the chat front end's selection picks, given the earlier suggestions as its used-set. |
| Console.OfferStep | console.py:105-111 | One round keeps the loop invariant, and a round only happens while fewer suggestions than the bucket holds have been shown. |
| Console.OfferUntilSettled | console.py:103-128 | The loop shows distinct bucket entries, at most as many as the bucket holds. It stops with "shared everything" only when all were shown and none settled. It stops with continue or end exactly at the first round whose answers are both "yes"; end is chosen iff the third answer is "yes". |
| Console.SuggestSolution | console.py:80-128 | A missing mood, a missing intensity, or a missing trigger without "General" each give their own message and show nothing. Otherwise the loop runs on the resolved bucket, and every shown suggestion is the selection of the chat front end given the earlier ones. |

## Left out

- The Streamlit user interface is left out: the title, chat bubbles, spinner, columns and buttons. Only the state changes behind them are modelled.
- Loading the JSON files is I/O. The four mappings are a constructor parameter.
- The matching algorithm of `fuzz.partial_ratio` belongs to a foreign library. It is an arbitrary scoring function into 0..100.
- `random.choice`, `random.uniform` and `time.sleep` are not modelled. Each choice is an index supplied by the caller, and the delay is dropped.
- `format_chat_history` and the download button only export the transcript for display.
- The `print`, `input` and `exit` calls and the outer `while True` loop of `console.py` are interactive I/O. That includes the greeting reply list and the mood confirmation of its main loop. The answers are inputs of `Console.Round`.
- Case mapping and whitespace cover ASCII only. Python's Unicode `lower`, `capitalize` and `isspace` are not modelled.
- `int()` is modelled for ASCII whitespace, an optional sign and ASCII digits. Underscores between digits and non-ASCII digits are not accepted.
- Dialogue.Session.constructor: a session needs a well-formed knowledge base. The trigger mapping must be non-empty and the "Unknown" reply list must exist and be non-empty. The source loads any data and fails only when the affected step runs: `sorted_scores[0]` raises on an empty trigger mapping, and `random.choice(RESPONSES["Unknown"])` raises on a missing or empty list. These failures are not modelled.
- Classifier.DetectTrigger: requires a non-empty trigger mapping. The source raises an `IndexError` at `sorted_scores[0]` otherwise, and that error path is not modelled.
- Console.DetectTrigger: requires a non-empty trigger mapping, for the same reason as `Classifier.DetectTrigger`.
- Dialogue.Session.Advance: requires a non-empty message. The chat input hands over only non-empty messages, because an empty one is false for the `if` that reads it.
- Dialogue.Session.Advance: at CONVERSATION_END the chat input is disabled and the source has no branch for the stage. The model records the message and gives no reply.
- `Dialogue.Session` keeps the pending pair of trigger candidates as its own constructor (`Pending`) of the trigger field. The source stores a Python tuple in the same session key.

## Findings

| source | as written | input that shows it | evidently intended | confidence | as-written member | corrected member |
|---|---|---|---|---|---|---|
| console.py:32 | The greeting check tests each greeting word as a substring of the whole message. | "think" contains "hi", so the console answers it as a greeting before trying any mood. | A greeting is a whole word of the message, as in the chat front end (app.py:31). | not executed | Console.ThinkIsGreeting | Console.ThinkIsNoGreetingByTokens |
