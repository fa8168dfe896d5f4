/** The interview held in place, as `st.session_state` holds it: the fields the
    handlers of `app.py` update, and one method per handler. Each method is proved
    to leave exactly the state the matching function of module Dialog describes,
    so every property proved about those functions holds of the object too. */
module Interview {
  import opened Wrappers
  import opened Text
  import opened Collaborators
  import opened Bank
  import opened Dialog
  import Selector
  import Sentiment
  import Language
  import DialogFacts

  class Interview {
    var stage: Stage
    var messages: seq<Message>
    var candidate: Candidate
    var techStackStr: string
    var questionsAsked: seq<string>
    var currentTech: string
    var askedCount: nat
    var ended: bool
    var sentimentHistory: seq<Point>
    var language: string
    var languageName: string
    var llmLoaded: bool
    var saved: seq<ChatRecord>
    /** The question tables, fixed for the life of the session. */
    const tables: Tables

    /** The fields as one snapshot. */
    function State(): Session
      reads this
    {
      Session(stage, messages, candidate, techStackStr, questionsAsked, currentTech, askedCount,
              ended, sentimentHistory, language, languageName, llmLoaded, saved, tables)
    }

    /** The invariant of every state a conversation reaches. */
    predicate Valid()
      reads this
    {
      Inv(State())
    }

    /** `initialize_session_state` on an empty session. */
    constructor (llmLoaded: bool, tables: Tables)
      requires tables.WellFormed()
      ensures State() == Initial(llmLoaded, tables)
      ensures Valid()
    {
      stage := Greeting;
      messages := [];
      candidate := Candidate("", "", "", "", "", "", []);
      techStackStr := "";
      questionsAsked := [];
      currentTech := "";
      askedCount := 0;
      ended := false;
      sentimentHistory := [];
      language := "en";
      languageName := "English";
      this.llmLoaded := llmLoaded;
      saved := [];
      this.tables := tables;
    }

    /** `add_message`: append the message; a user message is then scored, the trace
        gains `(len(messages), score)`, and the score is stored on the message. */
    method AddMessage(role: Role, content: Content, svc: Services)
      modifies this
      requires role == User ==> content.Typed?
      ensures State() == Dialog.AddMessage(old(State()), role, content, svc)
    {
      messages := messages + [Message(role, content, None)];
      if role == User {
        var score := svc.polarity(content.text);
        sentimentHistory := sentimentHistory + [Point(|messages|, score)];
        messages := messages[|messages| - 1 := Message(role, content, Some(SentimentTag(Sentiment.Classify(score), score)))];
      }
    }

    /** An assistant reply, in the preferred language. */
    method Say(reply: Reply)
      modifies this
      ensures State() == Dialog.Say(old(State()), reply)
    {
      messages := messages + [Message(Assistant, Said(reply, language), None)];
    }

    /** `greet()` */
    method Greet()
      modifies this
      requires Valid()
      ensures State() == Dialog.Greet(old(State()))
      ensures Valid()
    {
      Say(Welcome);
      DialogFacts.SayKeepsInv(old(State()), Welcome);
    }

    /** The preference update at the start of `process_user_input`: a supported code
        other than English becomes the preferred language, and the first listed
        name with that code becomes the language name. */
    method UpdateLanguage(detected: string)
      modifies this
      ensures State() == Dialog.UpdateLanguage(old(State()), detected)
    {
      if detected != "en" && Language.IsSupportedCode(detected) {
        language := detected;
        var langs := Language.SupportedLanguages;
        for k := 0 to |langs|
          invariant forall j :: 0 <= j < k ==> langs[j].1 != detected
          invariant State() == old(State()).(language := detected)
        {
          if langs[k].1 == detected {
            languageName := langs[k].0;
            Language.FirstNameAt(langs, detected, k);
            break;
          }
        }
      }
    }

    /** The sidebar's language selector between turns. */
    method SelectLanguage(name: string)
      modifies this
      requires Valid() && Language.CodeOf(name).Some?
      ensures State() == Dialog.SelectLanguage(old(State()), name)
      ensures Valid()
    {
      var code := Language.CodeOf(name).value;
      if code != language {
        language := code;
        languageName := name;
      }
      DialogFacts.SelectLanguageAgrees(old(State()), name);
    }

    /** `save_chat_history`: hand over the profile, the transcript and the trace. */
    method SaveChatHistory()
      modifies this
      ensures State() == old(State()).(saved := old(saved) + [ChatRecord(candidate, messages, sentimentHistory)])
    {
      saved := saved + [ChatRecord(candidate, messages, sentimentHistory)];
    }

    /** `handle_exit` */
    method HandleExit()
      modifies this
      ensures State() == Dialog.HandleExit(old(State()))
    {
      if !ended {
        Say(Farewell(candidate.name, candidate.email, candidate.phone));
        ended := true;
        SaveChatHistory();
      }
    }

    /** `handle_fallback` */
    method HandleFallback(choice: nat)
      modifies this
      ensures State() == Dialog.HandleFallback(old(State()), choice)
    {
      Say(Clarify(FallbackResponses[choice % |FallbackResponses|]));
    }

    /** `wrap_up_interview` */
    method WrapUpInterview()
      modifies this
      ensures State() == Dialog.WrapUpInterview(old(State()))
    {
      Say(WrapUpNote(candidate.name));
    }

    /** `handle_unknown_tech_stack` */
    method HandleUnknownTechStack()
      modifies this
      ensures State() == Dialog.HandleUnknownTechStack(old(State()))
    {
      Say(NoSpecificQuestions);
      Say(GeneralQuestion);
      stage := WrapUp;
    }

    /** The end of `ask_technical_questions` once the technology is settled. */
    method AskOrWrapUp(pick: Selector.Pick)
      modifies this
      ensures State() == Dialog.AskOrWrapUp(old(State()), pick)
    {
      match pick
      case Exhausted =>
        stage := WrapUp;
        WrapUpInterview();
      case FromDefault(q) =>
        Say(TechQuestion(currentTech, q));
      case _ =>
        questionsAsked := questionsAsked + [pick.question];
        Say(TechQuestion(currentTech, pick.question));
    }

    /** `ask_technical_questions`. Its self-recursion on an exhausted technology is
        a tail call; it runs here as the loop of `FindAskable`, after which the
        current technology and the per-technology count are updated as the
        recursion leaves them, and the question found is asked or the interview
        wraps up. */
    method AskTechnicalQuestions(svc: Services, choice: nat) returns (outcome: Outcome)
      modifies this
      requires tables.WellFormed() && currentTech in candidate.techStack
      ensures Step(State(), outcome) == AskTechnical(old(State()), svc, choice)
    {
      var tech, pick, moved, diverged := FindAskable(svc, choice);
      currentTech := tech;
      if moved {
        askedCount := 0;
      }
      if diverged {
        outcome := RecursionError;
      } else {
        AskOrWrapUp(pick);
        outcome := Completed;
      }
    }

    /** The chain of exhausted technologies walked in one call of
        `ask_technical_questions`: move to the next entry while the bank of the
        current one is exhausted and a next entry exists. The positions already left
        are remembered; coming back to one of them is the endless recursion of the
        source (`diverged`). */
    method FindAskable(svc: Services, choice: nat) returns (tech: string, pick: Selector.Pick, moved: bool, diverged: bool)
      requires tables.WellFormed() && currentTech in candidate.techStack
      ensures Walk(State(), svc, choice, currentTech, {}) == Walked(tech, pick, moved, diverged)
    {
      var techs := candidate.techStack;
      tech := currentTech;
      var visited: set<nat> := {};
      moved, diverged := false, false;
      while true
        invariant tech in techs
        invariant forall v :: v in visited ==> v < |techs|
        invariant moved <==> visited != {}
        invariant Walk(State(), svc, choice, currentTech, {}) == Walk(State(), svc, choice, tech, visited)
        decreases |techs| - |visited|
      {
        var i := IndexOf(techs, tech);
        if i in visited {
          pick, diverged, moved := Selector.Exhausted, true, true;
          break;
        }
        var llmQuestion := Selector.GenerateQuestion(llmLoaded, svc.generate, tech);
        pick := Selector.SelectQuestion(tables, tech, questionsAsked, llmQuestion, choice);
        assert pick == SelectFor(State(), svc, choice, tech);
        if !pick.Exhausted? || i + 1 >= |techs| {
          break;
        }
        BoundedSetSize(visited + {i}, |techs|);
        visited := visited + {i};
        tech := techs[i + 1];
        moved := true;
      }
    }

    /** Replace the parsed tech stack. */
    method StoreTechs(working: string)
      modifies this
      ensures State() == old(State()).(techStackStr := working, candidate := old(candidate).(techStack := ParseTechStack(working)))
    {
      techStackStr := working;
      var techs := ParseTechStack(working);
      candidate := candidate.(techStack := techs);
    }

    /** The tech-stack branch of `process_user_input`. */
    method TechStackStage(working: string, svc: Services, choice: nat) returns (outcome: Outcome)
      modifies this
      requires tables.WellFormed()
      ensures Step(State(), outcome) == Dialog.TechStackStage(old(State()), working, svc, choice)
    {
      ghost var s0 := State();
      StoreTechs(working);
      var valid := KnownTechs(tables, candidate.techStack);
      if valid != [] {
        TechStackStageKnown(s0, working, svc, choice);
        outcome := StartQuestions(valid[0], svc, choice);
      } else {
        HandleUnknownTechStack();
        outcome := Completed;
      }
    }

    /** Questions begin about `tech`. */
    method StartQuestions(tech: string, svc: Services, choice: nat) returns (outcome: Outcome)
      modifies this
      requires tables.WellFormed() && tech in candidate.techStack
      ensures Step(State(), outcome) == AskTechnical(old(State()).(stage := TechnicalQuestions, currentTech := tech), svc, choice)
    {
      stage := TechnicalQuestions;
      currentTech := tech;
      outcome := AskTechnicalQuestions(svc, choice);
    }

    /** The counting half of the technical-questions branch. `more` is false when
        the cap was reached at the last entry. */
    method CountAnswer() returns (more: bool)
      modifies this
      requires currentTech in candidate.techStack
      ensures more ==> AfterAnswer(old(State())) == Some(State())
      ensures !more ==> AfterAnswer(old(State())).None? && State() == old(State()).(askedCount := old(askedCount) + 1)
    {
      askedCount := askedCount + 1;
      more := true;
      if askedCount >= MaxPerTech {
        var techs := candidate.techStack;
        var i := IndexOf(techs, currentTech);
        if i + 1 < |techs| {
          currentTech := techs[i + 1];
          askedCount := 0;
        } else {
          more := false;
        }
      }
    }

    /** The technical-questions branch of `process_user_input`. */
    method AnswerStage(svc: Services, choice: nat) returns (outcome: Outcome)
      modifies this
      requires tables.WellFormed() && currentTech in candidate.techStack
      ensures Step(State(), outcome) == Dialog.AnswerStage(old(State()), svc, choice)
    {
      var more := CountAnswer();
      if more {
        outcome := AskTechnicalQuestions(svc, choice);
      } else {
        stage := WrapUp;
        WrapUpInterview();
        outcome := Completed;
      }
    }

    /** The dispatch on `stage` in `process_user_input`. */
    method Dispatch(working: string, svc: Services, choice: nat) returns (outcome: Outcome)
      modifies this
      requires Ready(State())
      ensures Step(State(), outcome) == Dialog.Dispatch(old(State()), working, svc, choice)
    {
      outcome := Completed;
      match stage
      case Greeting =>
        stage := Name;
        Say(AskName);
      case Name =>
        candidate := candidate.(name := working);
        stage := Email;
        Say(AskEmail(working));
      case Email =>
        candidate := candidate.(email := working);
        stage := Phone;
        Say(AskPhone);
      case Phone =>
        candidate := candidate.(phone := working);
        stage := Experience;
        Say(AskExperience);
      case Experience =>
        candidate := candidate.(experience := working);
        stage := Position;
        Say(AskPosition);
      case Position =>
        candidate := candidate.(position := working);
        stage := Location;
        Say(AskLocation);
      case Location =>
        candidate := candidate.(location := working);
        stage := TechStack;
        Say(AskTechStack);
      case TechStack =>
        outcome := TechStackStage(working, svc, choice);
      case TechnicalQuestions =>
        outcome := AnswerStage(svc, choice);
      case WrapUp =>
        HandleExit();
      case Other(_) =>
        HandleFallback(choice);
    }

    /** `process_user_input`: one utterance, one turn. The invariant is kept. */
    method ProcessUserInput(input: string, svc: Services, choice: nat) returns (outcome: Outcome)
      modifies this
      requires Valid()
      ensures Step(State(), outcome) == Turn(old(State()), input, svc, choice)
      ensures Valid()
    {
      ghost var before := State();
      var translated := Language.DetectAndTranslate(svc, input, "en");
      UpdateLanguage(translated.1);
      var working := translated.0;
      AddMessage(User, Typed(input), svc);
      assert State() == Record(before, svc, input);
      if IsExitInput(working) && stage != Greeting {
        HandleExit();
        outcome := Completed;
      } else {
        outcome := Dispatch(working, svc, choice);
      }
      DialogFacts.TurnPreservesInv(before, input, svc, choice);
    }
  }
}
