/** The interview dialog state machine of the TalentScout assistant, as functions
    on a snapshot of the session state. Each function is one handler of `app.py`;
    `Turn` is `process_user_input`. The class in module Interview performs the same
    updates in place and is proved equal to these functions. */
module Dialog {
  import opened Wrappers
  import opened Text
  import opened Collaborators
  import opened Bank
  import Selector
  import Sentiment
  import Language

  /** `st.session_state.stage`. `Other` stands for any string that is not one of
      the ten stage names the dialog uses. */
  datatype Stage =
    | Greeting | Name | Email | Phone | Experience | Position | Location | TechStack
    | TechnicalQuestions | WrapUp
    | Other(text: string)
  {
    /** The stages before any technical question is asked. */
    predicate IsIntake() {
      Greeting? || Name? || Email? || Phone? || Experience? || Position? || Location? || TechStack?
    }
  }

  /** `st.session_state.candidate_info` */
  datatype Candidate = Candidate(
    name: string, email: string, phone: string, experience: string,
    position: string, location: string, techStack: seq<string>)

  datatype Role = User | Assistant

  /** The `sentiment` entry of a user message. */
  datatype SentimentTag = SentimentTag(category: Sentiment.Category, score: real)

  /** The `content` of a message: what the user typed, or a reply of the assistant
      together with the preferred language it was shown in. `Display` gives the
      exact string the source stores. */
  datatype Content = Typed(text: string) | Said(reply: Reply, language: string)

  /** One entry of `st.session_state.messages`; only user messages carry a sentiment. */
  datatype Message = Message(role: Role, content: Content, sentiment: Option<SentimentTag>)

  /** One `(len(messages), score)` pair of `st.session_state.sentiment_history`. */
  datatype Point = Point(index: nat, score: real)

  /** What `save_chat_history` writes: the profile, the transcript and the trace. */
  datatype ChatRecord = ChatRecord(candidate: Candidate, messages: seq<Message>, sentimentHistory: seq<Point>)

  /** The session state the dialog reads and writes. `saved` lists the records
      handed to `save_chat_history`, oldest first. `tables` holds the two constant
      question tables, which no handler changes. */
  datatype Session = Session(
    stage: Stage,
    messages: seq<Message>,
    candidate: Candidate,
    techStackStr: string,
    questionsAsked: seq<string>,
    currentTech: string,
    askedCount: nat,
    ended: bool,
    sentimentHistory: seq<Point>,
    language: string,
    languageName: string,
    llmLoaded: bool,
    saved: seq<ChatRecord>,
    tables: Tables)

  /** A turn either finishes or, in the source, recurses without end until Python
      raises `RecursionError`. */
  datatype Outcome = Completed | RecursionError

  datatype Step = Step(session: Session, outcome: Outcome)

  /** The assistant messages the dialog composes, before translation. */
  datatype Reply =
    | Welcome
    | AskName
    | AskEmail(name: string)
    | AskPhone
    | AskExperience
    | AskPosition
    | AskLocation
    | AskTechStack
    | TechQuestion(tech: string, question: string)
    | NoSpecificQuestions
    | GeneralQuestion
    | WrapUpNote(name: string)
    | Farewell(name: string, email: string, phone: string)
    | Clarify(text: string)

  /** Questions asked about one technology before moving to the next. */
  const MaxPerTech: nat := 3

  /** `EXIT_PHRASES` */
  const ExitPhrases: seq<string> := ["bye", "goodbye", "exit", "quit", "end", "thank you", "thanks"]

  /** `FALLBACK_RESPONSES` */
  const FallbackResponses: seq<string> := [
    "I'm not sure I understand. Could you please rephrase that?",
    "I didn't quite catch that. Can you elaborate?",
    "I'm having trouble following. Could you clarify what you mean?",
    "I'm sorry, I didn't understand. Let's try a different approach.",
    "I may have missed something. Could you provide more details?"
  ]

  /** The English text of each reply. */
  function English(r: Reply): string {
    match r
    case Welcome =>
      "\n    \U{1F44B} Hello! I'm the TalentScout AI Assistant.\n    \n    I'll be helping you through the initial screening process for your job application.\n    I'll ask you a series of questions to learn more about you and your technical skills.\n    \n    Let's get started! How are you doing today?\n    "
    case AskName => "First, could you please tell me your full name?"
    case AskEmail(name) => "Nice to meet you, " + name + "! Could you please provide your email address?"
    case AskPhone => "Great! Now, could you share your phone number?"
    case AskExperience => "How many years of experience do you have in your field?"
    case AskPosition => "Thanks! What position(s) are you interested in applying for at TalentScout?"
    case AskLocation => "What is your current location?"
    case AskTechStack =>
      "Please list the technologies you're proficient in, separated by commas (e.g., Python, JavaScript, React, MongoDB)."
    case TechQuestion(tech, question) => "About " + Capitalize(tech) + ": " + question
    case NoSpecificQuestions =>
      "I don't have specific technical questions for the technologies you've mentioned. Let's have a more general discussion about your skills."
    case GeneralQuestion => "Can you describe your technical background and the projects you've worked on?"
    case WrapUpNote(name) =>
      "\n    Thank you for answering the technical questions, " + name + "!\n    \n    Based on our conversation, I have a good understanding of your background and technical skills.\n    \n    Is there anything else you'd like to share about yourself or do you have any questions about the position?\n    "
    case Farewell(name, email, phone) =>
      "\n        Thank you for taking the time to chat with me today, " + name + "!\n        \n        Our team at TalentScout will review your profile, and we'll be in touch via email (" + email + ") or phone (" + phone + ") within the next 3-5 business days.\n        \n        Have a great day!\n        "
    case Clarify(text) => text
  }

  /** `initialize_session_state` on an empty session; `llmLoaded` says whether the
      text-generation pipeline could be loaded. */
  function Initial(llmLoaded: bool, tables: Tables): (s: Session)
    requires tables.WellFormed()
    ensures Inv(s) && s.stage == Greeting && !s.ended && s.messages == [] && s.saved == []
  {
    Session(Greeting, [], Candidate("", "", "", "", "", "", []), "", [], "", 0, false, [],
            "en", "English", llmLoaded, [], tables)
  }

  /** The initial preference is English, and its name maps back to its code. */
  lemma InitialLanguage(llmLoaded: bool, tables: Tables)
    requires tables.WellFormed()
    ensures var s := Initial(llmLoaded, tables);
      s.language == Language.Canonical && Language.CodeOf(s.languageName) == Some(s.language)
  {
  }

  /** The sentiment trace agrees with the transcript: exactly the user messages
      carry a sentiment, and each trace point names, by its one-based position, a
      user message scored with that point's score; points are in transcript order. */
  predicate TraceMatches(msgs: seq<Message>, trace: seq<Point>) {
    && (forall i :: 0 <= i < |msgs| ==> (msgs[i].role == User <==> msgs[i].sentiment.Some?))
    && (forall k :: 0 <= k < |trace| ==>
          1 <= trace[k].index <= |msgs| &&
          msgs[trace[k].index - 1].role == User &&
          msgs[trace[k].index - 1].sentiment ==
            Some(SentimentTag(Sentiment.Classify(trace[k].score), trace[k].score)))
    && (forall k, l :: 0 <= k < l < |trace| ==> trace[k].index < trace[l].index)
  }

  /** What the handlers need: well-formed tables and, in the technical-questions
      stage, a current technology that `techs.index(current_tech)` finds. */
  predicate Ready(s: Session) {
    s.tables.WellFormed() && (s.stage == TechnicalQuestions ==> s.currentTech in s.candidate.techStack)
  }

  /** The invariant of every state the dialog reaches from `Initial`. */
  predicate Inv(s: Session) {
    && s.tables.WellFormed()
    && !s.stage.Other?
    && (s.stage.IsIntake() ==>
          s.candidate.techStack == [] && s.questionsAsked == [] && s.currentTech == "" && s.askedCount == 0)
    && (s.stage == TechnicalQuestions ==>
          s.currentTech in s.candidate.techStack && s.askedCount < MaxPerTech)
    && (if s.ended then |s.saved| == 1 else s.saved == [])
    && TraceMatches(s.messages, s.sentimentHistory)
  }

  /** `after` is `before` with only unscored assistant messages appended. */
  predicate AssistantAppend(before: seq<Message>, after: seq<Message>) {
    before <= after &&
    forall i :: |before| <= i < |after| ==> after[i].role == Assistant && after[i].sentiment == None
  }

  /** `add_message(role, content)`; a user message is scored by the polarity
      collaborator, and the trace records the transcript length after the append. */
  function AddMessage(s: Session, role: Role, content: Content, svc: Services): (r: Session)
    requires role == User ==> content.Typed?
    ensures |r.messages| == |s.messages| + 1 && r.messages[..|s.messages|] == s.messages
    ensures r.messages[|s.messages|].role == role && r.messages[|s.messages|].content == content
    ensures role == User ==>
      var score := svc.polarity(content.text);
      r.messages[|s.messages|].sentiment == Some(SentimentTag(Sentiment.Classify(score), score)) &&
      r.sentimentHistory == s.sentimentHistory + [Point(|r.messages|, score)]
    ensures role == Assistant ==>
      r.messages[|s.messages|].sentiment == None && r.sentimentHistory == s.sentimentHistory
    ensures r.(messages := s.messages, sentimentHistory := s.sentimentHistory) == s
  {
    if role == User then
      var score := svc.polarity(content.text);
      s.(messages := s.messages + [Message(User, content, Some(SentimentTag(Sentiment.Classify(score), score)))],
         sentimentHistory := s.sentimentHistory + [Point(|s.messages| + 1, score)])
    else
      s.(messages := s.messages + [Message(role, content, None)])
  }

  /** The string the source stores as a message's `content`: a reply is translated
      from English when it was shown in another language (`translate_to_user_language`,
      called only when the preferred language is not English). */
  function Display(svc: Services, c: Content): (r: string)
    ensures c.Typed? ==> r == c.text
    ensures c.Said? && c.language == Language.Canonical ==> r == English(c.reply)
    ensures c.Said? && c.language != Language.Canonical ==>
      r == Language.TranslateToUser(svc, English(c.reply), Language.Canonical, c.language)
  {
    match c
    case Typed(text) => text
    case Said(reply, language) =>
      if language != "en" then Language.TranslateToUser(svc, English(reply), "en", language) else English(reply)
  }

  /** An `ask_*` helper, and every other place that composes a reply, translates it
      for the preferred language and adds it as an assistant message. */
  function Say(s: Session, reply: Reply): (r: Session)
    ensures r.messages == s.messages + [Message(Assistant, Said(reply, s.language), None)]
    ensures r.(messages := s.messages) == s
  {
    s.(messages := s.messages + [Message(Assistant, Said(reply, s.language), None)])
  }

  /** The preference update at the start of `process_user_input`. */
  function UpdateLanguage(s: Session, detected: string): (r: Session)
    ensures r.(language := s.language, languageName := s.languageName) == s
    ensures r.language != s.language ==> detected != "en" && Language.IsSupportedCode(detected)
    ensures detected != "en" && Language.IsSupportedCode(detected) ==>
      r.language == detected && Language.CodeOf(r.languageName) == Some(detected)
    ensures r.languageName != s.languageName ==> detected != "en" && Language.IsSupportedCode(detected)
  {
    if detected != "en" && Language.IsSupportedCode(detected) then
      Language.NameOfRoundTrip(detected);
      s.(language := detected, languageName := Language.NameOf(detected))
    else s
  }

  /** The sidebar's language selector, run on every render between turns: picking
      a listed name whose code differs from the preference switches the code and
      the name to it; otherwise nothing changes. */
  function SelectLanguage(s: Session, name: string): (r: Session)
    requires Language.CodeOf(name).Some?
    ensures r.language == Language.CodeOf(name).value
    ensures r.language != s.language ==> r.languageName == name
    ensures r.languageName != s.languageName ==> r.language != s.language
    ensures r.(language := s.language, languageName := s.languageName) == s
  {
    var code := Language.CodeOf(name).value;
    if code != s.language then s.(language := code, languageName := name) else s
  }

  /** The language name is the entry listed for the preferred code. */
  predicate LanguageAgrees(s: Session) {
    Language.CodeOf(s.languageName) == Some(s.language)
  }

  /** `any(phrase in text.lower() for phrase in EXIT_PHRASES)` */
  predicate IsExitInput(text: string) {
    exists k :: 0 <= k < |ExitPhrases| && Contains(Lower(text), ExitPhrases[k])
  }

  /** `handle_exit`: the first call says farewell, marks the conversation ended and
      saves it; later calls change nothing. */
  function HandleExit(s: Session): (r: Session)
    ensures s.ended ==> r == s
    ensures !s.ended ==>
      && r.ended
      && r.messages == s.messages +
           [Message(Assistant, Said(Farewell(s.candidate.name, s.candidate.email, s.candidate.phone), s.language), None)]
      && r.saved == s.saved + [ChatRecord(s.candidate, r.messages, s.sentimentHistory)]
    ensures r.(messages := s.messages, ended := s.ended, saved := s.saved) == s
  {
    if s.ended then s
    else
      var s1 := Say(s, Farewell(s.candidate.name, s.candidate.email, s.candidate.phone));
      s1.(ended := true, saved := s1.saved + [ChatRecord(s1.candidate, s1.messages, s1.sentimentHistory)])
  }

  /** `handle_fallback`: one clarification phrase, chosen by `choice`. */
  function HandleFallback(s: Session, choice: nat): (r: Session)
    ensures |r.messages| == |s.messages| + 1 && r.messages[..|s.messages|] == s.messages
    ensures exists k :: (0 <= k < |FallbackResponses| &&
      r.messages[|s.messages|] == Message(Assistant, Said(Clarify(FallbackResponses[k]), s.language), None))
    ensures r.(messages := s.messages) == s
  {
    Say(s, Clarify(FallbackResponses[choice % |FallbackResponses|]))
  }

  /** `wrap_up_interview` */
  function WrapUpInterview(s: Session): (r: Session)
    ensures r.messages == s.messages + [Message(Assistant, Said(WrapUpNote(s.candidate.name), s.language), None)]
    ensures r.(messages := s.messages) == s
  {
    Say(s, WrapUpNote(s.candidate.name))
  }

  /** `handle_unknown_tech_stack`: two messages, then straight to wrap-up. */
  function HandleUnknownTechStack(s: Session): (r: Session)
    ensures r.stage == WrapUp
    ensures r.messages == s.messages + [
      Message(Assistant, Said(NoSpecificQuestions, s.language), None),
      Message(Assistant, Said(GeneralQuestion, s.language), None)]
    ensures r.(messages := s.messages, stage := s.stage) == s
  {
    Say(Say(s, NoSpecificQuestions), GeneralQuestion).(stage := WrapUp)
  }

  /** `techs.index(tech)`: the first position holding `tech`. */
  function IndexOf(techs: seq<string>, tech: string): (i: nat)
    requires tech in techs
    ensures i < |techs| && techs[i] == tech
    ensures forall j :: 0 <= j < i ==> techs[j] != tech
  {
    if techs[0] == tech then 0 else 1 + IndexOf(techs[1..], tech)
  }

  /** `[tech.strip().lower() for tech in text.split(',')]` */
  function ParseTechStack(text: string): (techs: seq<string>)
    ensures |techs| == Count(text, ',') + 1
    ensures forall i :: 0 <= i < |techs| ==>
      ',' !in techs[i] && HasNoUpper(techs[i]) &&
      (techs[i] == [] || (!IsSpace(techs[i][0]) && !IsSpace(techs[i][|techs[i]| - 1])))
    ensures |techs| == |Split(text, ',')|
    ensures forall i :: 0 <= i < |techs| ==> techs[i] == StripLower(Split(text, ',')[i])
  {
    var pieces := Split(text, ',');
    forall i | 0 <= i < |pieces| ensures ',' !in StripLower(pieces[i]) {
      StripLowerAdds(pieces[i], ',');
    }
    seq(|pieces|, i requires 0 <= i < |pieces| => StripLower(pieces[i]))
  }

  /** `[tech for tech in techs if tech in TECH_QUESTIONS]` */
  function KnownTechs(tb: Tables, techs: seq<string>): (valid: seq<string>)
    ensures forall t :: t in valid <==> t in techs && t in tb.techQuestions
    ensures valid != [] ==> exists i :: FirstKnownAt(tb, techs, i) && techs[i] == valid[0]
  {
    if techs == [] then []
    else if techs[0] in tb.techQuestions then [techs[0]] + KnownTechs(tb, techs[1..])
    else
      var rest := KnownTechs(tb, techs[1..]);
      assert rest != [] ==> exists i :: FirstKnownAt(tb, techs, i) && techs[i] == rest[0] by {
        if rest != [] {
          var i :| FirstKnownAt(tb, techs[1..], i) && techs[1..][i] == rest[0];
          assert FirstKnownAt(tb, techs, i + 1);
        }
      }
      rest
  }

  /** Position `i` holds a bank key and no earlier position does. */
  predicate FirstKnownAt(tb: Tables, techs: seq<string>, i: int) {
    0 <= i < |techs| && techs[i] in tb.techQuestions &&
    forall j :: 0 <= j < i ==> techs[j] !in tb.techQuestions
  }

  /** The question source `ask_technical_questions` finds for `tech`. */
  function SelectFor(s: Session, svc: Services, choice: nat, tech: string): Selector.Pick
    requires s.tables.WellFormed()
  {
    Selector.SelectQuestion(s.tables, tech, s.questionsAsked, Selector.GenerateQuestion(s.llmLoaded, svc.generate, tech), choice)
  }

  /** Where the self-recursion of `ask_technical_questions` stops: the technology it
      ends at, what it finds there, whether it moved on at least once (which resets
      the per-technology count), and whether it came back to a position it had
      already left, in which case the source recurses forever. */
  datatype Walked = Walked(tech: string, pick: Selector.Pick, moved: bool, diverged: bool)

  /** A set of positions below `n` has at most `n` elements. */
  lemma {:induction false} BoundedSetSize(v: set<nat>, n: nat)
    requires forall x :: x in v ==> x < n
    ensures |v| <= n
  {
    if n == 0 {
      assert v == {};
    } else {
      BoundedSetSize(v - {n - 1}, n - 1);
    }
  }

  /** The chain of exhausted technologies walked in one turn. `visited` holds the
      positions already left behind. */
  function Walk(s: Session, svc: Services, choice: nat, tech: string, visited: set<nat>): (w: Walked)
    requires s.tables.WellFormed()
    requires tech in s.candidate.techStack
    requires forall v :: v in visited ==> v < |s.candidate.techStack|
    decreases |s.candidate.techStack| - |visited|
    ensures w.tech in s.candidate.techStack
    ensures visited != {} ==> w.moved
    ensures !w.moved ==> w.tech == tech
    ensures w.diverged ==> w.moved
    ensures !w.diverged ==> w.pick == SelectFor(s, svc, choice, w.tech)
    ensures !w.diverged && w.pick.Exhausted? ==> IndexOf(s.candidate.techStack, w.tech) + 1 == |s.candidate.techStack|
  {
    var techs := s.candidate.techStack;
    var i := IndexOf(techs, tech);
    if i in visited then Walked(tech, Selector.Exhausted, true, true)
    else
      var p := SelectFor(s, svc, choice, tech);
      if !p.Exhausted? || i + 1 >= |techs| then Walked(tech, p, visited != {}, false)
      else
        BoundedSetSize(visited + {i}, |techs|);
        Walk(s, svc, choice, techs[i + 1], visited + {i})
  }

  /** `ask_technical_questions` for the current technology. */
  function AskTechnical(s: Session, svc: Services, choice: nat): (r: Step)
    requires s.tables.WellFormed() && s.currentTech in s.candidate.techStack
    ensures r.session.currentTech in s.candidate.techStack
    ensures r.session.stage == s.stage || r.session.stage == WrapUp
    ensures AssistantAppend(s.messages, r.session.messages) && |r.session.messages| <= |s.messages| + 1
    ensures s.questionsAsked <= r.session.questionsAsked && |r.session.questionsAsked| <= |s.questionsAsked| + 1
    ensures r.session.askedCount == s.askedCount || r.session.askedCount == 0
    ensures r.session.(messages := s.messages, questionsAsked := s.questionsAsked, currentTech := s.currentTech,
                       askedCount := s.askedCount, stage := s.stage) == s
  {
    var w := Walk(s, svc, choice, s.currentTech, {});
    if w.diverged then Step(s.(currentTech := w.tech, askedCount := 0), RecursionError)
    else
      var s1 := s.(currentTech := w.tech, askedCount := if w.moved then 0 else s.askedCount);
      Step(AskOrWrapUp(s1, w.pick), Completed)
  }

  /** The end of `ask_technical_questions` once the technology is settled: ask what
      was found, or wrap up when the last technology is exhausted. */
  function AskOrWrapUp(s: Session, pick: Selector.Pick): (r: Session)
    ensures pick.Exhausted? ==> r.stage == WrapUp
    ensures !pick.Exhausted? ==> r.stage == s.stage
    ensures r.messages == s.messages + [Message(Assistant, Said(
      if pick.Exhausted? then WrapUpNote(s.candidate.name) else TechQuestion(s.currentTech, pick.question),
      s.language), None)]
    ensures r.questionsAsked ==
      if pick.Generated? || pick.FromBank? then s.questionsAsked + [pick.question] else s.questionsAsked
    ensures r.(messages := s.messages, questionsAsked := s.questionsAsked, stage := s.stage) == s
  {
    match pick
    case Exhausted => WrapUpInterview(s.(stage := WrapUp))
    case FromDefault(q) => Say(s, TechQuestion(s.currentTech, q))
    case _ => Say(s.(questionsAsked := s.questionsAsked + [pick.question]), TechQuestion(s.currentTech, pick.question))
  }

  /** The tech-stack stage handler. */
  function TechStackStage(s: Session, working: string, svc: Services, choice: nat): Step
    requires s.tables.WellFormed()
  {
    var techs := ParseTechStack(working);
    var s1 := s.(techStackStr := working, candidate := s.candidate.(techStack := techs));
    var valid := KnownTechs(s.tables, techs);
    if valid != [] then
      assert valid[0] in techs;
      AskTechnical(s1.(stage := TechnicalQuestions, currentTech := valid[0]), svc, choice)
    else Step(HandleUnknownTechStack(s1), Completed)
  }

  /** The branch of the tech-stack stage taken when some entry is known. */
  lemma TechStackStageKnown(s: Session, working: string, svc: Services, choice: nat)
    requires s.tables.WellFormed() && KnownTechs(s.tables, ParseTechStack(working)) != []
    ensures var techs := ParseTechStack(working);
      var valid := KnownTechs(s.tables, techs);
      valid[0] in techs &&
      TechStackStage(s, working, svc, choice) ==
        AskTechnical(s.(techStackStr := working, candidate := s.candidate.(techStack := techs),
                        stage := TechnicalQuestions, currentTech := valid[0]), svc, choice)
  {
    assert KnownTechs(s.tables, ParseTechStack(working))[0] in ParseTechStack(working);
  }

  /** The branch of the tech-stack stage taken when no entry is known. */
  lemma TechStackStageUnknown(s: Session, working: string, svc: Services, choice: nat)
    requires s.tables.WellFormed() && KnownTechs(s.tables, ParseTechStack(working)) == []
    ensures TechStackStage(s, working, svc, choice) ==
      Step(HandleUnknownTechStack(s.(techStackStr := working,
                                     candidate := s.candidate.(techStack := ParseTechStack(working)))), Completed)
  {
  }

  /** The counting half of the technical-questions stage: the answer is counted and,
      once the cap is reached, the current technology moves to the next entry with
      the count back at zero. `None` when the cap is reached at the last entry. */
  function AfterAnswer(s: Session): (r: Option<Session>)
    requires s.currentTech in s.candidate.techStack
    ensures r.Some? ==> r.value == s.(currentTech := r.value.currentTech, askedCount := r.value.askedCount)
    ensures r.Some? ==> r.value.currentTech in s.candidate.techStack && r.value.askedCount < MaxPerTech
    ensures r.None? <==>
      s.askedCount + 1 >= MaxPerTech && IndexOf(s.candidate.techStack, s.currentTech) + 1 == |s.candidate.techStack|
    ensures s.askedCount + 1 < MaxPerTech ==> r == Some(s.(askedCount := s.askedCount + 1))
    ensures s.askedCount + 1 >= MaxPerTech && r.Some? ==>
      && r.value.currentTech == s.candidate.techStack[IndexOf(s.candidate.techStack, s.currentTech) + 1]
      && r.value.askedCount == 0
  {
    var s1 := s.(askedCount := s.askedCount + 1);
    if s1.askedCount >= MaxPerTech then
      var techs := s.candidate.techStack;
      var i := IndexOf(techs, s.currentTech);
      if i + 1 < |techs| then Some(s1.(currentTech := techs[i + 1], askedCount := 0))
      else None
    else Some(s1)
  }

  /** The technical-questions stage handler: count the answer, then ask again, or
      wrap up after the cap at the last entry. */
  function AnswerStage(s: Session, svc: Services, choice: nat): Step
    requires s.tables.WellFormed() && s.currentTech in s.candidate.techStack
  {
    match AfterAnswer(s)
    case Some(next) => AskTechnical(next, svc, choice)
    case None => Step(WrapUpInterview(s.(askedCount := s.askedCount + 1, stage := WrapUp)), Completed)
  }

  /** The dispatch on `stage` in `process_user_input`. */
  function Dispatch(s: Session, working: string, svc: Services, choice: nat): Step
    requires Ready(s)
  {
    match s.stage
    case Greeting => Step(Say(s.(stage := Name), AskName), Completed)
    case Name =>
      var s1 := s.(candidate := s.candidate.(name := working), stage := Email);
      Step(Say(s1, AskEmail(working)), Completed)
    case Email => Step(Say(s.(candidate := s.candidate.(email := working), stage := Phone), AskPhone), Completed)
    case Phone =>
      Step(Say(s.(candidate := s.candidate.(phone := working), stage := Experience), AskExperience), Completed)
    case Experience =>
      Step(Say(s.(candidate := s.candidate.(experience := working), stage := Position), AskPosition), Completed)
    case Position =>
      Step(Say(s.(candidate := s.candidate.(position := working), stage := Location), AskLocation), Completed)
    case Location =>
      Step(Say(s.(candidate := s.candidate.(location := working), stage := TechStack), AskTechStack), Completed)
    case TechStack => TechStackStage(s, working, svc, choice)
    case TechnicalQuestions => AnswerStage(s, svc, choice)
    case WrapUp => Step(HandleExit(s), Completed)
    case Other(_) => Step(HandleFallback(s, choice), Completed)
  }

  /** The text the stage handlers see: the utterance translated to English. */
  function Working(svc: Services, input: string): (r: string)
    ensures r == input || svc.translate(input, "auto", Language.Canonical) == Some(r)
    ensures svc.detect(input).None? || svc.detect(input) == Some(Language.Canonical) ==> r == input
  {
    Language.DetectAndTranslate(svc, input, "en").0
  }

  /** The language and transcript bookkeeping done before any handler runs. */
  function Record(s: Session, svc: Services, input: string): (r: Session)
    ensures r.stage == s.stage && r.candidate == s.candidate && r.ended == s.ended && r.saved == s.saved
    ensures r.questionsAsked == s.questionsAsked && r.currentTech == s.currentTech && r.askedCount == s.askedCount
  {
    var detected := Language.DetectAndTranslate(svc, input, "en").1;
    AddMessage(UpdateLanguage(s, detected), User, Typed(input), svc)
  }

  /** The exit check of `process_user_input`. */
  predicate ExitRequested(s: Session, svc: Services, input: string) {
    IsExitInput(Working(svc, input)) && s.stage != Greeting
  }

  /** `process_user_input(input)` with the collaborators `svc` and the random choice `choice`. */
  function Turn(s: Session, input: string, svc: Services, choice: nat): Step
    requires Ready(s)
  {
    var s2 := Record(s, svc, input);
    if ExitRequested(s, svc, input) then Step(HandleExit(s2), Completed)
    else Dispatch(s2, Working(svc, input), svc, choice)
  }

  /** `greet()`, shown by the page when a conversation starts. */
  function Greet(s: Session): (r: Session)
    ensures r.messages == s.messages + [Message(Assistant, Said(Welcome, s.language), None)]
    ensures r.(messages := s.messages) == s
  {
    Say(s, Welcome)
  }
}
