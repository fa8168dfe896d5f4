# TalentScout interview dialog, modelled in Dafny

TalentScout is a Streamlit screening assistant. This project models its interview
dialog state machine in `app.py` and proves properties of it. One utterance at a time,
`process_user_input`:

- translates the utterance into English;
- may update the preferred language;
- records the utterance with its sentiment;
- checks for exit phrases;
- otherwise dispatches on the interview stage.

The intake stages (`greeting` to `location`) fill in the candidate profile. The
tech-stack stage parses the candidate's technologies. The technical-questions stage
asks up to three questions per technology, from a generator or from the question
bank. The interview then wraps up and ends.

Modules:

- `Dialog` (dialog.dfy) is the specification. `Session` is a snapshot of
  `st.session_state`, each handler is a function on it, and `Turn` is
  `process_user_input`.
- `Interview` (interview.dfy) is the program in its own form. The class
  `Interview.Interview` holds the session fields, with one method per handler. Each
  method is proved to leave the object in exactly the state the matching `Dialog`
  function computes. So every property proved about `Dialog` holds of the object.
  - The self-recursion of `ask_technical_questions` over exhausted technologies is
    a tail call. Here it is the loop of `FindAskable`.
  - The loop over `SUPPORTED_LANGUAGES` is a `for` loop in `UpdateLanguage`.
- `DialogFacts` (facts.dfy) holds the turn-level properties: recording, language,
  the invariant, intake order and exit handling.
- `TechnicalFacts` (technical.dfy) holds the properties of the tech-stack stage and
  the question loop. These include the endless recursion that duplicate tech entries
  cause.
- `Text` models the Python string operations used: `lower`, `capitalize`, `strip`,
  `split` and substring `in`.
- `Sentiment` models the score bucketing.
- `Language` models `SUPPORTED_LANGUAGES` and the two translation helpers.
- `Selector` models question selection for one technology.
- `Bank` describes the shape of the question tables, and `QuestionBank` holds the
  constants the source declares.
- `Collaborators` bundles the external services as function values.
- `Wrappers` defines `Option`.

The external collaborators are parameters: language detection, translation,
sentiment polarity and question generation. The `random.choice` calls become a
`choice: nat` argument, taken modulo the list length.

Where the code and the surrounding documentation disagree, the model follows the code:

- There is no `ended` stage. Ending sets `conversation_ended` and leaves the stage as it
  was (app.py:611).
- The page stops taking input once the conversation has ended (app.py:766).
  `process_user_input` itself does not check the flag: called after the end, it still
  records the utterance as a user message, and only `handle_exit` turns into a no-op.
  The model describes `process_user_input` for every state satisfying `Ready`, ended
  ones included. `Inv`, which every state reached by `DialogFacts.Run` from `Initial`
  has, implies `Ready` (`DialogFacts.InvIsReady`).
- The forward skip over exhausted technologies does not always terminate. A repeated
  entry in the tech stack makes it recurse until Python raises `RecursionError`.
  The model represents this as the outcome `RecursionError`.

## Model

| member | source | states |
|---|---|---|
| Interview.Interview.ProcessUserInput | app.py:345-447 | One utterance leaves the object in exactly the state `Dialog.Turn` describes, and the turn keeps the session invariant. |
| Interview.Interview.constructor | app.py:151-181 | A new session is the initial state: greeting stage, empty profile and transcript, English preference, not ended; the invariant holds. |
| Interview.Interview.AddMessage | app.py:272-283 | Appends the message. A user message is then scored, the trace gains `(len(messages), score)` and the stored message carries the category and score. |
| Interview.Interview.UpdateLanguage | app.py:350-356 | The loop over the supported languages sets the language name to the first entry with the detected code. The result equals `Dialog.UpdateLanguage`. |
| Interview.Interview.SaveChatHistory | app.py:255-269 | Exactly one record, holding the profile, the transcript and the trace, is added to the saved records. |
| Interview.Interview.HandleExit | app.py:596-614 | In place, the same farewell, ended flag and single save as `Dialog.HandleExit`. |
| Interview.Interview.HandleFallback | app.py:616-623 | In place, one fallback reply chosen by the random choice. |
| Interview.Interview.WrapUpInterview | app.py:581-594 | In place, the wrap-up note addressed to the candidate. |
| Interview.Interview.HandleUnknownTechStack | app.py:562-579 | In place, the two messages and the move to wrap-up. |
| Interview.Interview.Greet | app.py:451-464 | In place, the welcome message in the preferred language, as `Dialog.Greet` gives it. The invariant is kept. |
| Interview.Interview.FindAskable | app.py:536-544 | The loop ends where the self-recursion stops, with the same pick. It reports whether it moved and whether it came back to a position it had left. |
| Interview.Interview.AskTechnicalQuestions | app.py:508-560 | The state and outcome are those of `Dialog.AskTechnical`, including the reset count after moving on and the `RecursionError` outcome. |
| Interview.Interview.Say | app.py:556-560 | In place, the reply is appended as one assistant message kept with the preferred language, as `Dialog.Say` gives it. |
| Interview.Interview.AskOrWrapUp | app.py:545-560 | In place, the state `Dialog.AskOrWrapUp` describes: the wrap-up for an exhausted pick, otherwise the question message, recorded when it is not a default one. |
| Interview.Interview.StoreTechs | app.py:405-409 | In place, the raw answer is kept as `tech_stack_str` and the profile's tech stack becomes its parsed entries. Nothing else changes. |
| Interview.Interview.StartQuestions | app.py:414-417 | In place, the stage becomes technical questions with the given technology current, and then the state and outcome are those of `Dialog.AskTechnical`. |
| Interview.Interview.TechStackStage | app.py:404-419 | The state and outcome are those of `Dialog.TechStackStage`. |
| Interview.Interview.CountAnswer | app.py:421-436 | The count goes up; at the cap the current technology moves to the next entry with the count at zero. It reports when there is no next entry. |
| Interview.Interview.AnswerStage | app.py:421-440 | The state and outcome are those of `Dialog.AnswerStage`. |
| Interview.Interview.Dispatch | app.py:368-447 | The state and outcome are those of `Dialog.Dispatch` for every stage, the fallback included. |
| Dialog.Initial | app.py:151-181 | The initial state satisfies the invariant, is at the greeting, is not ended, and has no messages and no saved record. |
| Dialog.InitialLanguage | app.py:178-181 | The initial preference is English, and its name maps back to its code. |
| Dialog.AddMessage | app.py:272-283 | Exactly one message is appended, with the given role and content. A user message is scored, and the trace gains one point whose index is the new transcript length. An assistant message carries no sentiment and leaves the trace alone. Nothing else changes. |
| Dialog.UpdateLanguage | app.py:350-356 | The language changes only to a supported code other than `en`. A supported non-English code is always taken, and the language name is then a key mapping to that code. The name changes only for such a code. Nothing else changes. |
| Dialog.SelectLanguage | app.py:734-736 | The sidebar choice sets the language to the chosen name's code. The name is replaced exactly when the code changes. Nothing else changes. |
| Interview.Interview.SelectLanguage | app.py:734-736 | In place, the state `Dialog.SelectLanguage` describes. The invariant is kept. |
| Dialog.HandleExit | app.py:596-614 | On an ended session nothing changes. Otherwise the farewell with name, email and phone is appended, the flag is set, and one record holding the transcript that ends in the farewell is saved. |
| Dialog.HandleFallback | app.py:616-623 | Exactly one message is added, and it is one of the five fallback responses. |
| Dialog.WrapUpInterview | app.py:581-594 | Exactly the wrap-up note with the candidate's name is appended. |
| Dialog.HandleUnknownTechStack | app.py:562-579 | Exactly the no-specific-questions message and then the general question are appended, and the stage becomes wrap-up. |
| Dialog.IndexOf | app.py:428 | `techs.index(tech)` gives the first position holding `tech`. |
| Dialog.ParseTechStack | app.py:408 | One entry per comma-separated piece, in order: entry `i` is piece `i` stripped and lower-cased. So each entry is free of commas and upper-case letters and has no white space at either end. |
| TechnicalFacts.ParseTechStackExample | app.py:408 | The input `Python, Unknowntech, SQL` parses to `python`, `unknowntech` and `sql`, in that order. |
| TechnicalFacts.SplitExample | app.py:408 | `Python, Unknowntech, SQL` splits on commas into `Python`, ` Unknowntech` and ` SQL`. |
| Dialog.KnownTechs | app.py:412 | It keeps exactly the entries that are bank keys. Its first element is the first known entry of the input. |
| Dialog.Walk | app.py:536-544 | The forward skip ends at an entry of the tech stack. When it does not diverge, the pick there is the selection for that technology. An exhausted pick happens only at the last entry. |
| Dialog.AskTechnical | app.py:508-560 | One call adds at most one assistant message and at most one recorded question. The stage stays or becomes wrap-up, the current technology stays in the tech stack, and the count is kept or reset. |
| Dialog.AskOrWrapUp | app.py:545-560 | With an exhausted pick, the wrap-up. Otherwise the question message about the current technology, recorded when it is generated or from the bank. |
| Dialog.AfterAnswer | app.py:421-436 | Below the cap the count goes up by one and nothing else changes. At the cap the current technology becomes the next entry of the tech stack, with the count at zero. There is no next state exactly when the cap is reached at the last entry. The count stays below the cap, and the current technology stays in the tech stack. |
| Dialog.AnswerStage | app.py:421-440 | The technical-questions stage handler. It has no `ensures` of its own. `TechnicalFacts.BelowCapStays` and `TechnicalFacts.CapMovesOn` state its result below and at the cap. `TechnicalFacts.AnswerCompletes` and `TechnicalFacts.AnswerDiverges` state when it completes. |
| Dialog.TechStackStage | app.py:404-419 | The tech-stack stage handler. It has no `ensures` of its own. `Dialog.TechStackStageKnown` and `Dialog.TechStackStageUnknown` give its two branches. `TechnicalFacts.TechStackKnown` and `TechnicalFacts.TechStackUnknown` state the stored list, the stage and the messages. |
| Dialog.TechStackStageKnown | app.py:411-416 | When some parsed entry is a bank key, the stage stores the raw text and the parsed list, then asks about the first known entry at the technical-questions stage. |
| Dialog.TechStackStageUnknown | app.py:417-419 | When no parsed entry is a bank key, the stage stores the raw text and the parsed list, then runs `handle_unknown_tech_stack`. |
| Dialog.Dispatch | app.py:368-447 | The dispatch on the stage. It has no `ensures` of its own. `DialogFacts.IntakeDispatch` states the intake steps. `DialogFacts.DispatchKeepsInv` shows it keeps the invariant, and `DialogFacts.DispatchFramed` shows it only appends assistant messages and leaves the trace and the language alone. |
| Dialog.IsExitInput | app.py:365 | The exit test: some exit phrase occurs as a substring of the lower-cased text. It is a predicate. `DialogFacts.BackendEndsInterview` shows the substring match on `Backend developer`. |
| Dialog.ExitRequested | app.py:365 | The exit branch is taken exactly when the translated utterance passes the exit test and the stage is not the greeting. It is a predicate. `DialogFacts.EndedIff` and `DialogFacts.ExitTakesPriority` state what the branch does. |
| Dialog.Turn | app.py:345-447 | `process_user_input`. It has no `ensures` of its own. `DialogFacts.TurnRecordsUtterance`, `DialogFacts.TurnLanguage`, `DialogFacts.EndedIff`, `DialogFacts.TurnPreservesInv` and `TechnicalFacts.TurnCompletes` state its properties. `Interview.Interview.ProcessUserInput` is proved equal to it. |
| Dialog.Say | app.py:466-470 | A reply composed by a handler is appended as one assistant message, kept with the preferred language it is shown in. `Dialog.Display` does the translation. Nothing else changes. |
| Dialog.SelectFor | app.py:511-554 | The question source for one technology. It has no `ensures` of its own. It passes the generator's result to `Selector.SelectQuestion`, whose contract states the pick. |
| Dialog.Working | app.py:347-359 | The text the handlers see is the utterance itself or its translation to English. It is the utterance itself when detection fails or finds English. |
| Dialog.Record | app.py:347-362 | The language and transcript bookkeeping leaves the stage, profile, question state, ended flag and saved records alone. |
| Dialog.Display | app.py:466-470 | What a user typed is stored as typed, and a reply in English is stored as its English text. A reply in another language is its English text passed through `translate_to_user_language`, so a failed translation shows the English text. |
| Dialog.Greet | app.py:451-464 | Exactly the welcome message is appended. |
| DialogFacts.RecordKeepsTrace | app.py:272-283 | Recording the utterance keeps the trace in step with the transcript. |
| DialogFacts.TurnRecordsUtterance | app.py:345-362 | Every turn adds the untranslated utterance, scored, as its first message, and only assistant messages after it. The trace gains one point whose index is the transcript length after the append. |
| DialogFacts.TurnLanguage | app.py:347-356 | Over a turn the preference changes only for a supported code other than `en`. For such a code it becomes that code, and the name maps back to it. |
| DialogFacts.TurnKeepsLanguageAgreement | app.py:350-356 | When the language name maps to the language code before a turn, it still does after it. |
| DialogFacts.SelectLanguageAgrees | app.py:734-736 | After a sidebar choice the name maps to the code whenever it did before or the code changed. The choice keeps the invariant, and choosing the current name changes nothing. |
| DialogFacts.TurnPreservesInv | app.py:345-447 | Every turn keeps the invariant. It covers these facts: the stage is one of the ten names, so the fallback is unreachable. The current technology is in the tech stack, so `index` cannot fail. The count stays below the cap. The chat is saved exactly once after it ends. The trace matches the transcript. |
| DialogFacts.ReachableStates | app.py:445-447 | From the initial state, after any sequence of turns, the fallback stage is never reached, and the chat was saved once exactly when the conversation ended. |
| DialogFacts.RunStep | app.py:345-447 | Running a conversation is one turn followed by the rest, and each turn keeps the invariant. |
| DialogFacts.IntakeDispatch | app.py:368-402 | Each intake stage moves one step along the intake order. It writes the working text into the field of the stage it leaves, and no other field changes. It adds one assistant message. |
| DialogFacts.IntakeAdvances | app.py:370-402 | A non-exit turn in an intake stage moves exactly one step along `greeting, name, … , tech_stack`. It writes the translated input into exactly that stage's field and adds the utterance and one question. Nothing ends and nothing is saved. |
| DialogFacts.HandleExitIdempotent | app.py:596-614 | Calling `handle_exit` twice is the same as calling it once. |
| DialogFacts.ExitTakesPriority | app.py:365-367 | An exit phrase outside the greeting, or any input in wrap-up, runs only `handle_exit`. The stage, profile and question state stay and the session is ended. The first time, the farewell follows the utterance and one record is saved; afterwards only the utterance is added. |
| DialogFacts.EndedIff | app.py:365-367 | A turn ends the conversation exactly when it was ended already, or an exit phrase came outside the greeting, or the stage was wrap-up. |
| DialogFacts.EndedIsFinal | app.py:596-614 | Once ended, no turn reopens the conversation or saves it again. |
| DialogFacts.BackendEndsInterview | app.py:365 | Because exit phrases match as substrings, answering "Backend developer" at the position stage ends the interview. The position is not stored. |
| TechnicalFacts.WalkForward | app.py:536-544 | Over distinct entries the forward skip never diverges and only moves forward. It took at least one step exactly when it ended elsewhere or had already left a position. |
| TechnicalFacts.WalkSkipsExhausted | app.py:536-544 | Every technology the forward skip passes over has its bank questions all asked. |
| TechnicalFacts.AskTechnicalCompletes | app.py:508-560 | Over distinct entries `ask_technical_questions` completes. It moves only forward, past exhausted technologies, and a move resets the count. |
| TechnicalFacts.AskTechnicalAsks | app.py:508-560 | A completed call adds exactly one message. At the last exhausted entry that message is the wrap-up note, and nothing is recorded. Otherwise it is the question found, recorded unless it came from the default list. A diverging call adds nothing. |
| TechnicalFacts.AskTechnicalNoRepeat | app.py:524-534 | Without a generator, a call keeps `questions_asked` free of repeats and grows it by at most one. |
| TechnicalFacts.AskTechnicalDiverges | app.py:536-544 | Suppose the tech stack is `[t, t]`, every bank question about `t` was asked, and there is no generator. Then the recursion never ends, because `index` always finds the first `t`. |
| TechnicalFacts.FirstKnownLeads | app.py:412-415 | The first entry that is a bank key is the first element of the filtered list. |
| TechnicalFacts.FirstQuestion | app.py:517-534 | With nothing asked yet, a known technology gets a question at once, and it is recorded. It is a generated question only when a generator is loaded, otherwise one from that technology's bank. |
| TechnicalFacts.TechStackKnown | app.py:404-416 | When some parsed entry is a bank key, every parsed entry is stored in input order, unknown ones included. The stage becomes technical questions, about the first known entry, with the count at zero. Exactly one question is asked and recorded. |
| TechnicalFacts.TechStackUnknown | app.py:417-419 | When no parsed entry is a bank key, every parsed entry is still stored. Exactly the two messages of `handle_unknown_tech_stack` follow, and the stage becomes wrap-up. |
| TechnicalFacts.BelowCapStays | app.py:438-440 | Below the cap, an answer only raises the count. When that technology's bank is not exhausted, it is asked about again, with the message and recording that go with it. |
| TechnicalFacts.CapMovesOn | app.py:424-436 | At the cap, the dialog moves to the next entry with the count at zero, and asks about it when its bank is not exhausted. At the last entry exactly the wrap-up note follows and nothing is recorded. |
| TechnicalFacts.TechStackCompletes | app.py:404-419 | Over distinct parsed entries, the tech-stack stage completes. |
| TechnicalFacts.AnswerCompletes | app.py:421-440 | Over distinct entries, an answer in the technical-questions stage completes. |
| TechnicalFacts.TurnCompletes | app.py:345-447 | When the tech list in use has no repeated entry, every turn completes. |
| TechnicalFacts.AnswerDiverges | app.py:421-440 | With the `[t, t]` hazard, an answer diverges both below the cap and at it. |
| TechnicalFacts.DuplicateDiverges | app.py:536-544 | With the `[t, t]` hazard, any non-exit utterance in the technical-questions stage makes the turn recurse forever. |
| TechnicalFacts.TurnNoRepeat | app.py:527-532 | Without a generator, no turn records a question twice. |
| TechnicalFacts.NoRepeatsWithoutGenerator | app.py:527-532 | Without a generator, no sequence of turns ever records a question twice. |
| TechnicalFacts.FreshSessionNeverRepeats | app.py:527-532 | From the initial state without a generator, `questions_asked` never holds a duplicate. |
| Selector.GenerateQuestion | app.py:237-253 | Without a loaded model there is no question. A returned question has at least 20 characters and contains `?`. Every generated text that passes this check is returned. |
| Selector.Available | app.py:527 | It keeps exactly the bank questions not yet asked. |
| Selector.SelectQuestion | app.py:517-554 | A non-empty generated question wins. A bank pick is an unasked question of that technology. `Exhausted` means the technology is a bank key and all its questions were asked. A default pick happens exactly for a technology without a key, and comes from the default list. |
| Selector.ChooseUnasked | app.py:527-531 | The pick is an unasked question of the entry, or `Exhausted` exactly when all were asked. |
| Selector.EveryAvailableQuestionCanBeChosen | app.py:529-531 | Every unasked bank question is chosen for some value of the random choice. |
| Selector.EveryUnaskedQuestionCanBeChosen | app.py:529-531 | Every unasked question of an entry is chosen for some value of the random choice. |
| Sentiment.Classify | app.py:203-208 | Positive exactly when the score is above 0.3, negative exactly when below -0.3, neutral otherwise. |
| Sentiment.Color | app.py:320-326 | The colour is green, red or yellow. |
| Sentiment.ColorFollowsCategory | app.py:320-326 | The chart colour is green, red or yellow exactly when the category is positive, negative or neutral, so equal colours mean equal categories. |
| Sentiment.ClassifyIsMonotoneAndSymmetric | app.py:203-208 | A higher score never falls into a lower category, and negating a score mirrors its category. |
| Language.DetectAndTranslate | app.py:211-223 | A failed detection gives the text and `en`. Text already in the target language is kept. Any other detected language comes with its translation when the translation succeeds, and the text falls back to the original and `en` when it fails. |
| Language.TranslateToUser | app.py:226-234 | Text already in the preferred language is returned unchanged. Otherwise a successful translation is returned, and a failed one returns the text unchanged. |
| Language.CodeOf | app.py:735 | `SUPPORTED_LANGUAGES[name]`: a found code is declared with that name, and there is none exactly when no entry has that name. |
| Language.NameOf | app.py:352-355 | The name the loop settles on is declared with the given code. |
| Language.NameOfRoundTrip | app.py:353-356 | The name the loop finds for a supported code maps back to that code. |
| Language.EntriesAreDistinct | app.py:137-148 | No two supported languages share a name or a code. |
| QuestionBank.SourceIsWellFormed | app.py:14-122 | The declared default list is non-empty, and every declared bank entry is non-empty. |
| QuestionBank.KeysAreDeclared | app.py:14-113 | The bank's keys are exactly the fourteen declared lower-case technology names. |
| QuestionBank.BankEntriesHaveFiveQuestions | app.py:14-113 | Every bank entry has five distinct questions. |
| Text.Lower | app.py:408 | `lower()` keeps the length and lower-cases each character on its own. |
| Text.Split | app.py:408 | `split(sep)` gives one more piece than there are separators, and no piece holds the separator. With `Text.JoinSplit` and `Text.SplitJoin` it is the inverse of `Text.Join`. |
| Text.LowerFixesLowered | app.py:408 | Lower-casing leaves no upper-case letter and is idempotent. |
| Text.Strip | app.py:408 | `strip()` gives a slice of the text with only white space cut off on either side and none left at either end. |
| Text.StripIsUnique | app.py:408 | Any slice with only white space around it and none at its own ends is the result of `strip()`. |
| Text.StripLower | app.py:408 | `strip().lower()` is `strip()` lower-cased character by character, so it leaves no upper-case letter and no white space at either end. |
| Text.JoinSplit | app.py:408 | Splitting on the separator and joining again gives back the text. |
| Text.SplitJoin | app.py:408 | Joining separator-free pieces and splitting again gives back the pieces. |
| Text.Capitalize | app.py:520 | `capitalize` keeps the length, leaves no lower-case first letter and no upper-case letter after it. |
| Text.CapitalizeChars | app.py:520 | `capitalize` upper-cases the first character and lower-cases each later one. |

## Left out

- The Streamlit page (app.py:626-780). The parts with state are modelled. `main` greets on the first run at the greeting stage (app.py:762-763), which is `Interview.Interview.Greet`. It hands input to `process_user_input` only while the conversation has not ended (app.py:766). The sidebar selector (app.py:734-736) is `SelectLanguage`. The rest is rendering only: `display_chat_history`, `display_sentiment_visualization`, `load_css`, the charts and the page text.
- The session invariant `Inv` does not constrain `language` and `language_name`. The separate predicate `Dialog.LanguageAgrees` does, and turns and the sidebar choice keep it.
- The restart button (app.py:772-780) is not a method. It deletes every key and `initialize_session_state` runs again, which is the `Interview` constructor run on a fresh object.
- TextBlob polarity is the `polarity` collaborator. It is taken as an exact real. Only the bucketing is modelled, not floating point.
- `langdetect.detect` and `GoogleTranslator` are the `detect` and `translate` collaborators, with `None` for a call that raised. Assistant messages keep the reply together with the language it was shown in. `Dialog.Display` gives the string that was stored, and translation happens there. It does so only given the turn's `translate` collaborator. The session keeps no record of that per-turn function, so the strings of a saved record cannot be recovered from the model state alone.
- The HuggingFace pipeline, its prompt and the `split(prompt)` clean-up are the `generate` collaborator. It is a fixed function of the technology within one turn. A generator that answers differently on a later call of the same turn is not modelled. Whether the pipeline loaded is the `llmLoaded` argument of the constructor.
- `random.choice` is the `choice` argument, taken modulo the list length. One value serves a whole turn.
- `save_chat_history` file I/O, directory creation and timestamps are not modelled. The model only keeps the list `saved` of records handed over.
- String operations are modelled on ASCII. Python's Unicode case mapping and white-space classes are wider.
- The question tables are a constructor argument. The model does not bake them into the class. `QuestionBank.Source` holds the declared tables, and `QuestionBank.SourceIsWellFormed` shows they meet the constructor's requirement.
- The endless recursion on a repeated tech entry ends the turn with the outcome `RecursionError`. The exception itself, and the state Python is left in part-way through the recursion, are not modelled. When one name repeats, the model's current technology is where Python is stuck. When the cycle runs through two or more different names, as in `[a, b, a]` with both banks exhausted, the model stops where `Walk` detects the revisit. Python's current technology at the `RecursionError` depends on the recursion depth. Only the outcome is modelled faithfully.
- States outside `Ready` are not modelled: tables with an empty default list or an empty bank entry, and a technical-questions state whose `current_tech` is not in `tech_stack`. In the last one Python raises `ValueError` from `techs.index` (app.py:428 and app.py:538). No state reachable from a fresh session is of either kind.
- DialogFacts.IntakeAdvances: the intake order is stated one turn at a time. The eight-turn run from greeting to tech stack is not a single lemma.
