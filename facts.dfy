/** Properties of whole turns of the dialog in module Dialog: the bookkeeping every
    turn does, the invariant it keeps, the intake order and the exit handling. */
module DialogFacts {
  import opened Wrappers
  import opened Text
  import opened Collaborators
  import Sentiment
  import Language
  import opened Bank
  import opened Dialog

  // ----- Bookkeeping that every turn does ------------------------------------

  /** Appending assistant messages keeps the trace in step with the transcript. */
  lemma {:induction false} AssistantAppendKeepsTrace(before: seq<Message>, after: seq<Message>, trace: seq<Point>)
    requires TraceMatches(before, trace) && AssistantAppend(before, after)
    ensures TraceMatches(after, trace)
  {
    assert forall i :: 0 <= i < |before| ==> after[i] == before[i];
  }

  /** A scored user message keeps the trace in step with the transcript. */
  lemma {:induction false} AddUserKeepsTrace(s: Session, text: string, svc: Services)
    requires TraceMatches(s.messages, s.sentimentHistory)
    ensures var r := AddMessage(s, User, Typed(text), svc);
      TraceMatches(r.messages, r.sentimentHistory)
  {
    var r := AddMessage(s, User, Typed(text), svc);
    assert forall i :: 0 <= i < |s.messages| ==> r.messages[i] == s.messages[i];
    var n := |r.sentimentHistory|;
    assert r.sentimentHistory[n - 1].index == |r.messages|;
    assert forall k :: 0 <= k < n - 1 ==> r.sentimentHistory[k] == s.sentimentHistory[k];
  }

  /** Recording the utterance keeps the trace in step with the transcript. */
  lemma RecordKeepsTrace(s: Session, svc: Services, input: string)
    requires TraceMatches(s.messages, s.sentimentHistory)
    ensures TraceMatches(Record(s, svc, input).messages, Record(s, svc, input).sentimentHistory)
  {
    AddUserKeepsTrace(UpdateLanguage(s, Language.DetectAndTranslate(svc, input, "en").1), input, svc);
  }

  /** The handlers only append assistant messages and leave the trace, the language
      preference and the generator flag alone. */
  predicate Framed(before: Session, after: Session) {
    && AssistantAppend(before.messages, after.messages)
    && after.sentimentHistory == before.sentimentHistory
    && after.language == before.language && after.languageName == before.languageName
    && after.llmLoaded == before.llmLoaded
  }

  /** Neither the ended flag nor the saved chats change. */
  predicate Settled(before: Session, after: Session) {
    after.ended == before.ended && after.saved == before.saved
  }

  lemma TechStackFramed(s: Session, working: string, svc: Services, choice: nat)
    requires s.tables.WellFormed()
    ensures Framed(s, TechStackStage(s, working, svc, choice).session)
    ensures Settled(s, TechStackStage(s, working, svc, choice).session)
  {
    var techs := ParseTechStack(working);
    var s1 := s.(techStackStr := working, candidate := s.candidate.(techStack := techs));
    var valid := KnownTechs(s.tables, techs);
    if valid != [] {
      assert valid[0] in techs;
      var r := AskTechnical(s1.(stage := TechnicalQuestions, currentTech := valid[0]), svc, choice);
    }
  }

  lemma AnswerFramed(s: Session, svc: Services, choice: nat)
    requires s.tables.WellFormed() && s.currentTech in s.candidate.techStack
    ensures Framed(s, AnswerStage(s, svc, choice).session)
    ensures Settled(s, AnswerStage(s, svc, choice).session)
  {
  }

  lemma DispatchFramed(s: Session, working: string, svc: Services, choice: nat)
    requires Ready(s)
    ensures Framed(s, Dispatch(s, working, svc, choice).session)
  {
    match s.stage
    case TechStack => TechStackFramed(s, working, svc, choice);
    case TechnicalQuestions => AnswerFramed(s, svc, choice);
    case _ =>
  }

  /** Only the wrap-up stage's handler ends the conversation or saves it. */
  lemma DispatchSettled(s: Session, working: string, svc: Services, choice: nat)
    requires Ready(s) && s.stage != WrapUp
    ensures Settled(s, Dispatch(s, working, svc, choice).session)
  {
    match s.stage
    case TechStack => TechStackFramed(s, working, svc, choice);
    case TechnicalQuestions => AnswerFramed(s, svc, choice);
    case _ =>
  }

  /** After the utterance is recorded, the rest of the turn only appends assistant
      messages and does not touch the trace or the language preference. */
  lemma TurnAfterRecord(s: Session, input: string, svc: Services, choice: nat)
    requires Ready(s)
    ensures Framed(Record(s, svc, input), Turn(s, input, svc, choice).session)
  {
    if !ExitRequested(s, svc, input) {
      DispatchFramed(Record(s, svc, input), Working(svc, input), svc, choice);
    }
  }

  /** Each utterance is recorded, unchanged and scored, as the first message the
      turn adds, every later message of the turn is the assistant's, and the trace
      gains one point whose index is the transcript length right after that append. */
  lemma {:induction false} TurnRecordsUtterance(s: Session, input: string, svc: Services, choice: nat)
    requires Ready(s)
    ensures var r := Turn(s, input, svc, choice).session;
      var score := svc.polarity(input);
      && |r.messages| > |s.messages|
      && r.messages[..|s.messages|] == s.messages
      && r.messages[|s.messages|] == Message(User, Typed(input), Some(SentimentTag(Sentiment.Classify(score), score)))
      && AssistantAppend(r.messages[..|s.messages| + 1], r.messages)
      && r.sentimentHistory == s.sentimentHistory + [Point(|s.messages| + 1, score)]
  {
    var s2 := Record(s, svc, input);
    var r := Turn(s, input, svc, choice).session;
    TurnAfterRecord(s, input, svc, choice);
    assert r.messages[..|s.messages| + 1] == s2.messages;
    assert r.messages[..|s.messages|] == s2.messages[..|s.messages|];
  }

  /** Over a whole turn the preferred language changes only when the detected
      language is a supported code other than English; it then becomes that code,
      and the language name becomes the name listed for it. */
  lemma TurnLanguage(s: Session, input: string, svc: Services, choice: nat)
    requires Ready(s)
    ensures var r := Turn(s, input, svc, choice).session;
      var detected := Language.DetectAndTranslate(svc, input, "en").1;
      && (r.language != s.language || r.languageName != s.languageName ==>
            detected != "en" && Language.IsSupportedCode(detected))
      && (detected != "en" && Language.IsSupportedCode(detected) ==>
            r.language == detected && Language.CodeOf(r.languageName) == Some(detected))
  {
    TurnAfterRecord(s, input, svc, choice);
  }

  /** A turn keeps the language name in step with the preferred code. */
  lemma TurnKeepsLanguageAgreement(s: Session, input: string, svc: Services, choice: nat)
    requires Ready(s) && LanguageAgrees(s)
    ensures LanguageAgrees(Turn(s, input, svc, choice).session)
  {
    TurnLanguage(s, input, svc, choice);
  }

  /** The sidebar selector keeps the language name in step with the preferred code
      and touches nothing the invariant speaks of. Left on the entry it shows, the
      name of the current preference, it changes nothing. */
  lemma SelectLanguageAgrees(s: Session, name: string)
    requires Language.CodeOf(name).Some?
    ensures var r := SelectLanguage(s, name);
      && (LanguageAgrees(s) || r.language != s.language ==> LanguageAgrees(r))
      && (Inv(s) ==> Inv(r))
    ensures LanguageAgrees(s) ==> SelectLanguage(s, s.languageName) == s
  {
  }

  // ----- The invariant -------------------------------------------------------

  /** The technical-question step keeps the invariant in the stage that asks it. */
  lemma AskTechnicalKeepsInv(s: Session, svc: Services, choice: nat)
    requires Inv(s) && s.stage == TechnicalQuestions
    ensures Inv(AskTechnical(s, svc, choice).session)
  {
    var r := AskTechnical(s, svc, choice).session;
    AssistantAppendKeepsTrace(s.messages, r.messages, s.sentimentHistory);
  }

  /** An assistant reply keeps the invariant. */
  lemma SayKeepsInv(s: Session, reply: Reply)
    requires Inv(s)
    ensures Inv(Say(s, reply))
  {
    AssistantAppendKeepsTrace(s.messages, Say(s, reply).messages, s.sentimentHistory);
  }

  /** Starting the questions on a parsed tech stack keeps the invariant. */
  lemma StartQuestionsKeepsInv(s: Session, techs: seq<string>, svc: Services, choice: nat)
    requires Inv(s) && s.stage.IsIntake() && KnownTechs(s.tables, techs) != []
    ensures Inv(AskTechnical(s.(candidate := s.candidate.(techStack := techs), stage := TechnicalQuestions,
                                currentTech := KnownTechs(s.tables, techs)[0]), svc, choice).session)
  {
    var valid := KnownTechs(s.tables, techs);
    assert valid[0] in valid;
    AskTechnicalKeepsInv(s.(candidate := s.candidate.(techStack := techs), stage := TechnicalQuestions,
                            currentTech := valid[0]), svc, choice);
  }

  /** An unknown tech stack, whatever its entries, keeps the invariant. */
  lemma UnknownStackKeepsInv(s: Session, working: string, techs: seq<string>)
    requires Inv(s) && s.stage == TechStack
    ensures Inv(HandleUnknownTechStack(s.(techStackStr := working, candidate := s.candidate.(techStack := techs))))
  {
    var s1 := s.(techStackStr := working, candidate := s.candidate.(techStack := techs));
    AssistantAppendKeepsTrace(s.messages, HandleUnknownTechStack(s1).messages, s.sentimentHistory);
  }

  /** The tech-stack handler keeps the invariant. */
  lemma TechStackKeepsInv(s: Session, working: string, svc: Services, choice: nat)
    requires Inv(s) && s.stage == TechStack
    ensures Inv(TechStackStage(s, working, svc, choice).session)
  {
    var techs := ParseTechStack(working);
    if KnownTechs(s.tables, techs) != [] {
      TechStackStageKnown(s, working, svc, choice);
      StartQuestionsKeepsInv(s.(techStackStr := working), techs, svc, choice);
    } else {
      TechStackStageUnknown(s, working, svc, choice);
      UnknownStackKeepsInv(s, working, techs);
    }
  }

  /** The technical-questions handler keeps the invariant. */
  lemma AnswerKeepsInv(s: Session, svc: Services, choice: nat)
    requires Inv(s) && s.stage == TechnicalQuestions
    ensures Inv(AnswerStage(s, svc, choice).session)
  {
    match AfterAnswer(s)
    case Some(next) => AskTechnicalKeepsInv(next, svc, choice);
    case None => SayKeepsInv(s.(askedCount := s.askedCount + 1, stage := WrapUp), WrapUpNote(s.candidate.name));
  }

  /** `handle_exit` keeps the invariant. */
  lemma HandleExitKeepsInv(s: Session)
    requires Inv(s)
    ensures Inv(HandleExit(s))
  {
    if !s.ended {
      SayKeepsInv(s, Farewell(s.candidate.name, s.candidate.email, s.candidate.phone));
    }
  }

  /** The dispatch on the stage keeps the invariant. */
  lemma DispatchKeepsInv(s: Session, working: string, svc: Services, choice: nat)
    requires Inv(s)
    ensures Inv(Dispatch(s, working, svc, choice).session)
  {
    match s.stage
    case Greeting => SayKeepsInv(s.(stage := Name), AskName);
    case Name => SayKeepsInv(s.(candidate := s.candidate.(name := working), stage := Email), AskEmail(working));
    case Email => SayKeepsInv(s.(candidate := s.candidate.(email := working), stage := Phone), AskPhone);
    case Phone => SayKeepsInv(s.(candidate := s.candidate.(phone := working), stage := Experience), AskExperience);
    case Experience =>
      SayKeepsInv(s.(candidate := s.candidate.(experience := working), stage := Position), AskPosition);
    case Position =>
      SayKeepsInv(s.(candidate := s.candidate.(position := working), stage := Location), AskLocation);
    case Location =>
      SayKeepsInv(s.(candidate := s.candidate.(location := working), stage := TechStack), AskTechStack);
    case TechStack => TechStackKeepsInv(s, working, svc, choice);
    case TechnicalQuestions => AnswerKeepsInv(s, svc, choice);
    case WrapUp => HandleExitKeepsInv(s);
  }

  /** Every turn keeps the invariant. In particular the stage is always one of the
      ten names, so the fallback branch of the dispatch is never taken, and the
      current technology is always an entry of the tech stack, so `index` never fails. */
  lemma {:induction false} TurnPreservesInv(s: Session, input: string, svc: Services, choice: nat)
    requires Inv(s)
    ensures Inv(Turn(s, input, svc, choice).session)
  {
    var s2 := Record(s, svc, input);
    RecordKeepsTrace(s, svc, input);
    assert Inv(s2);
    if ExitRequested(s, svc, input) {
      HandleExitKeepsInv(s2);
    } else {
      DispatchKeepsInv(s2, Working(svc, input), svc, choice);
    }
  }

  /** A conversation as a sequence of utterances, each with its collaborators and
      random choice. */
  datatype Utterance = Utterance(input: string, svc: Services, choice: nat)

  /** The state after feeding `us` one turn at a time; every state on the way keeps
      the invariant. */
  function Run(s: Session, us: seq<Utterance>): (r: Session)
    requires Inv(s)
    ensures Inv(r)
    ensures r.llmLoaded == s.llmLoaded
    decreases |us|
  {
    if us == [] then s
    else
      TurnPreservesInv(s, us[0].input, us[0].svc, us[0].choice);
      TurnAfterRecord(s, us[0].input, us[0].svc, us[0].choice);
      Run(Turn(s, us[0].input, us[0].svc, us[0].choice).session, us[1..])
  }

  /** One step of `Run`. */
  lemma RunStep(s: Session, us: seq<Utterance>)
    requires Inv(s) && us != []
    ensures Inv(Turn(s, us[0].input, us[0].svc, us[0].choice).session)
    ensures Run(s, us) == Run(Turn(s, us[0].input, us[0].svc, us[0].choice).session, us[1..])
  {
    TurnPreservesInv(s, us[0].input, us[0].svc, us[0].choice);
  }

  /** From a fresh session, however the conversation goes, the stage is one of the
      ten names and the chat has been saved at most once, exactly when it ended. */
  lemma ReachableStates(llmLoaded: bool, tables: Tables, us: seq<Utterance>)
    requires tables.WellFormed()
    ensures var r := Run(Initial(llmLoaded, tables), us);
      !r.stage.Other? && |r.saved| <= 1 && (r.ended <==> |r.saved| == 1)
  {
  }

  /** The invariant gives the handlers what they need, so `Turn` accepts every
      state that `Run` reaches. */
  lemma InvIsReady(s: Session)
    requires Inv(s)
    ensures Ready(s)
  {
  }

  // ----- Intake order --------------------------------------------------------

  /** The intake stages in the order the dialog walks through them. */
  const IntakeOrder: seq<Stage> := [Greeting, Name, Email, Phone, Experience, Position, Location, TechStack]

  /** The profile field an intake stage fills in. */
  function Field(c: Candidate, st: Stage): string {
    match st
    case Name => c.name
    case Email => c.email
    case Phone => c.phone
    case Experience => c.experience
    case Position => c.position
    case Location => c.location
    case _ => ""
  }

  /** The dispatch of an intake stage: one step along the intake order, the
      working text into the field of the stage it leaves, one assistant question. */
  lemma IntakeDispatch(s: Session, working: string, svc: Services, choice: nat, k: nat)
    requires Ready(s) && k < 7 && s.stage == IntakeOrder[k]
    ensures var r := Dispatch(s, working, svc, choice);
      && r.outcome == Completed
      && r.session.stage == IntakeOrder[k + 1]
      && (forall j :: 1 <= j < 7 ==>
            Field(r.session.candidate, IntakeOrder[j]) ==
              if j == k then working else Field(s.candidate, IntakeOrder[j]))
      && r.session.candidate.techStack == s.candidate.techStack
      && |r.session.messages| == |s.messages| + 1
      && r.session.messages[|s.messages|].role == Assistant
      && r.session.ended == s.ended && r.session.saved == s.saved
      && r.session.questionsAsked == s.questionsAsked
  {
  }

  /** One intake turn moves exactly one step along the intake order, writes the
      translated utterance into the field of the stage it leaves and into no other,
      and adds the utterance and one assistant question. In the greeting stage even
      an exit phrase only moves the dialog on. */
  lemma IntakeAdvances(s: Session, input: string, svc: Services, choice: nat, k: nat)
    requires Inv(s) && k < 7 && s.stage == IntakeOrder[k]
    requires k == 0 || !IsExitInput(Working(svc, input))
    ensures var r := Turn(s, input, svc, choice);
      && r.outcome == Completed
      && r.session.stage == IntakeOrder[k + 1]
      && (forall j :: 1 <= j < 7 ==>
            Field(r.session.candidate, IntakeOrder[j]) ==
              if j == k then Working(svc, input) else Field(s.candidate, IntakeOrder[j]))
      && r.session.candidate.techStack == s.candidate.techStack
      && |r.session.messages| == |s.messages| + 2
      && r.session.messages[|s.messages| + 1].role == Assistant
      && r.session.ended == s.ended && r.session.saved == s.saved
      && r.session.questionsAsked == s.questionsAsked
  {
    var s2 := Record(s, svc, input);
    IntakeDispatch(s2, Working(svc, input), svc, choice, k);
  }

  // ----- Exit handling -------------------------------------------------------

  /** `handle_exit` is idempotent. */
  lemma HandleExitIdempotent(s: Session)
    ensures HandleExit(HandleExit(s)) == HandleExit(s)
  {
  }

  /** An exit phrase outside the greeting, or any utterance in the wrap-up stage,
      runs `handle_exit` and no stage handler: stage, profile and question state
      stay as they were, and the conversation is ended. The first time, exactly the
      farewell follows the utterance and the chat is saved once, with the transcript
      that ends in the farewell; afterwards only the utterance is recorded. */
  lemma ExitTakesPriority(s: Session, input: string, svc: Services, choice: nat)
    requires Ready(s)
    requires ExitRequested(s, svc, input) || s.stage == WrapUp
    ensures var r := Turn(s, input, svc, choice);
      var s2 := Record(s, svc, input);
      && r.outcome == Completed
      && r.session.ended
      && r.session.stage == s.stage && r.session.candidate == s.candidate
      && r.session.questionsAsked == s.questionsAsked
      && r.session.currentTech == s.currentTech && r.session.askedCount == s.askedCount
      && (s.ended ==> r.session == s2)
      && (!s.ended ==>
            && r.session.messages == s2.messages + [Message(Assistant, Said(
                 Farewell(s.candidate.name, s.candidate.email, s.candidate.phone), s2.language), None)]
            && r.session.saved == s.saved + [ChatRecord(s.candidate, r.session.messages, r.session.sentimentHistory)])
  {
  }

  /** A turn ends the conversation exactly when it was ended already, the utterance
      asks to exit outside the greeting, or the dialog was in the wrap-up stage. */
  lemma EndedIff(s: Session, input: string, svc: Services, choice: nat)
    requires Ready(s)
    ensures Turn(s, input, svc, choice).session.ended <==> s.ended || ExitRequested(s, svc, input) || s.stage == WrapUp
  {
    if !ExitRequested(s, svc, input) && s.stage != WrapUp {
      DispatchSettled(Record(s, svc, input), Working(svc, input), svc, choice);
    }
  }

  /** Once the conversation has ended, no turn saves it again or reopens it. */
  lemma EndedIsFinal(s: Session, input: string, svc: Services, choice: nat)
    requires Inv(s) && s.ended
    ensures var r := Turn(s, input, svc, choice).session;
      r.ended && r.saved == s.saved
  {
    if !ExitRequested(s, svc, input) && s.stage != WrapUp {
      DispatchSettled(Record(s, svc, input), Working(svc, input), svc, choice);
    }
  }

  /** Exit phrases are matched as substrings of the lower-cased input, so naming a
      backend position ends the interview at the position stage instead of storing
      the answer. */
  lemma {:induction false} BackendEndsInterview(s: Session, input: string, svc: Services, choice: nat)
    requires Inv(s) && s.stage == Position && !s.ended
    requires Working(svc, input) == "Backend developer"
    ensures var r := Turn(s, input, svc, choice).session;
      r.ended && r.stage == Position && r.candidate.position == s.candidate.position && |r.saved| == 1
  {
    assert Lower("Backend developer") == "backend developer";
    assert OccursAt(Lower("Backend developer"), ExitPhrases[4], 4);
    assert IsExitInput(Working(svc, input));
  }
}
