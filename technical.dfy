/** Properties of the tech-stack stage and of the technical-question loop:
    what the parsed stack holds, where the questions come from, the cap of three
    answers per technology, and when the exhaustion walk of
    `ask_technical_questions` ends. */
module TechnicalFacts {
  import opened Wrappers
  import opened Text
  import opened Collaborators
  import opened Bank
  import opened Dialog
  import opened DialogFacts
  import Selector

  /** No entry occurs twice. */
  predicate Distinct(xs: seq<string>) {
    forall i, j :: 0 <= i < j < |xs| ==> xs[i] != xs[j]
  }

  /** `index` finds each entry of a list without repeats at its own position. */
  lemma IndexOfDistinct(techs: seq<string>, i: nat)
    requires Distinct(techs) && i < |techs|
    ensures IndexOf(techs, techs[i]) == i
  {
  }

  // ----- The exhaustion walk -------------------------------------------------

  /** One step of the walk from a position not yet left: on to the next entry past
      an exhausted technology that is not the last, otherwise stop there. */
  lemma WalkStep(s: Session, svc: Services, choice: nat, tech: string, visited: set<nat>)
    requires s.tables.WellFormed() && tech in s.candidate.techStack
    requires forall v :: v in visited ==> v < |s.candidate.techStack|
    requires IndexOf(s.candidate.techStack, tech) !in visited
    ensures var techs := s.candidate.techStack;
      var i := IndexOf(techs, tech);
      var p := SelectFor(s, svc, choice, tech);
      && (p.Exhausted? && i + 1 < |techs| ==>
            Walk(s, svc, choice, tech, visited) == Walk(s, svc, choice, techs[i + 1], visited + {i}))
      && (!p.Exhausted? || i + 1 >= |techs| ==>
            Walk(s, svc, choice, tech, visited) == Walked(tech, p, visited != {}, false))
  {
  }

  /** Over distinct entries the walk never comes back to a position it left, so it
      ends. It only moves forward, and it moved exactly when it left its start. */
  lemma {:induction false} WalkForward(s: Session, svc: Services, choice: nat, tech: string, visited: set<nat>)
    requires s.tables.WellFormed() && tech in s.candidate.techStack
    requires Distinct(s.candidate.techStack)
    requires forall v :: v in visited ==> v < IndexOf(s.candidate.techStack, tech)
    decreases |s.candidate.techStack| - IndexOf(s.candidate.techStack, tech)
    ensures var w := Walk(s, svc, choice, tech, visited);
      var techs := s.candidate.techStack;
      && !w.diverged
      && IndexOf(techs, tech) <= IndexOf(techs, w.tech)
      && (w.moved <==> visited != {} || w.tech != tech)
  {
    var techs := s.candidate.techStack;
    var i := IndexOf(techs, tech);
    if SelectFor(s, svc, choice, tech).Exhausted? && i + 1 < |techs| {
      IndexOfDistinct(techs, i + 1);
      WalkForward(s, svc, choice, techs[i + 1], visited + {i});
      var w := Walk(s, svc, choice, techs[i + 1], visited + {i});
      WalkForwardOn(s, svc, choice, tech, visited, i, techs[i + 1], w);
    } else {
      WalkStep(s, svc, choice, tech, visited);
    }
  }

  /** The step of `WalkForward` past the exhausted technology at position `i`, on to
      `next`, from where the walk `w` ends without diverging, no earlier than `next`. */
  lemma WalkForwardOn(s: Session, svc: Services, choice: nat, tech: string, visited: set<nat>,
                      i: nat, next: string, w: Walked)
    requires s.tables.WellFormed() && tech in s.candidate.techStack
    requires forall v :: v in visited ==> v < i
    requires i == IndexOf(s.candidate.techStack, tech) && i + 1 < |s.candidate.techStack|
    requires next == s.candidate.techStack[i + 1] && IndexOf(s.candidate.techStack, next) == i + 1
    requires SelectFor(s, svc, choice, tech).Exhausted?
    requires w == Walk(s, svc, choice, next, visited + {i})
    requires i + 1 <= IndexOf(s.candidate.techStack, w.tech)
    ensures Walk(s, svc, choice, tech, visited) == w
    ensures w.moved && w.tech != tech
  {
    WalkStep(s, svc, choice, tech, visited);
  }

  /** Every technology the walk passes over has its bank exhausted. */
  lemma {:induction false} WalkSkipsExhausted(s: Session, svc: Services, choice: nat, tech: string, visited: set<nat>)
    requires s.tables.WellFormed() && tech in s.candidate.techStack
    requires Distinct(s.candidate.techStack)
    requires forall v :: v in visited ==> v < IndexOf(s.candidate.techStack, tech)
    decreases |s.candidate.techStack| - IndexOf(s.candidate.techStack, tech)
    ensures var w := Walk(s, svc, choice, tech, visited);
      forall j :: IndexOf(s.candidate.techStack, tech) <= j < IndexOf(s.candidate.techStack, w.tech) ==>
        SelectFor(s, svc, choice, s.candidate.techStack[j]).Exhausted?
  {
    var techs := s.candidate.techStack;
    var i := IndexOf(techs, tech);
    if SelectFor(s, svc, choice, tech).Exhausted? && i + 1 < |techs| {
      IndexOfDistinct(techs, i + 1);
      WalkSkipsExhaustedOn(s, svc, choice, tech, visited);
    } else {
      WalkStep(s, svc, choice, tech, visited);
    }
  }

  /** The step of `WalkSkipsExhausted` past an exhausted technology. */
  lemma {:induction false} WalkSkipsExhaustedOn(s: Session, svc: Services, choice: nat, tech: string, visited: set<nat>)
    requires s.tables.WellFormed() && tech in s.candidate.techStack
    requires Distinct(s.candidate.techStack)
    requires forall v :: v in visited ==> v < IndexOf(s.candidate.techStack, tech)
    requires var techs := s.candidate.techStack;
      var i := IndexOf(techs, tech);
      SelectFor(s, svc, choice, tech).Exhausted? && i + 1 < |techs| && IndexOf(techs, techs[i + 1]) == i + 1
    decreases |s.candidate.techStack| - IndexOf(s.candidate.techStack, tech), 0
    ensures var w := Walk(s, svc, choice, tech, visited);
      forall j :: IndexOf(s.candidate.techStack, tech) <= j < IndexOf(s.candidate.techStack, w.tech) ==>
        SelectFor(s, svc, choice, s.candidate.techStack[j]).Exhausted?
  {
    var techs := s.candidate.techStack;
    var i := IndexOf(techs, tech);
    WalkStep(s, svc, choice, tech, visited);
    var next := visited + {i};
    WalkSkipsExhausted(s, svc, choice, techs[i + 1], next);
    var w := Walk(s, svc, choice, techs[i + 1], next);
    assert Walk(s, svc, choice, tech, visited) == w;
    forall j | i <= j < IndexOf(techs, w.tech)
      ensures SelectFor(s, svc, choice, techs[j]).Exhausted?
    {
      if j == i {
        assert techs[j] == tech;
      }
    }
  }

  /** `ask_technical_questions` over distinct entries always completes. The current
      technology only moves forward, past technologies whose bank questions were all
      asked, and the per-technology count restarts when it moves. */
  lemma AskTechnicalCompletes(s: Session, svc: Services, choice: nat)
    requires s.tables.WellFormed() && s.currentTech in s.candidate.techStack
    requires Distinct(s.candidate.techStack)
    ensures var r := AskTechnical(s, svc, choice);
      var techs := s.candidate.techStack;
      && r.outcome == Completed
      && IndexOf(techs, s.currentTech) <= IndexOf(techs, r.session.currentTech)
      && (forall j :: IndexOf(techs, s.currentTech) <= j < IndexOf(techs, r.session.currentTech) ==>
            SelectFor(s, svc, choice, techs[j]).Exhausted?)
      && (r.session.currentTech != s.currentTech ==> r.session.askedCount == 0)
  {
    WalkForward(s, svc, choice, s.currentTech, {});
    WalkSkipsExhausted(s, svc, choice, s.currentTech, {});
  }

  /** What one call of `ask_technical_questions` adds when it completes: exactly one
      assistant message. When even the last technology it reaches is exhausted that
      message is the wrap-up note and nothing is recorded; otherwise it is the
      question found for the technology it settled on, recorded in `questions_asked`
      unless it came from the default list. When the recursion does not end, nothing
      is added. */
  lemma AskTechnicalAsks(s: Session, svc: Services, choice: nat)
    requires s.tables.WellFormed() && s.currentTech in s.candidate.techStack
    requires s.stage == TechnicalQuestions
    ensures var st := AskTechnical(s, svc, choice);
      var r := st.session;
      var n := |s.messages|;
      var p := SelectFor(s, svc, choice, r.currentTech);
      && (st.outcome == RecursionError ==>
            r.messages == s.messages && r.questionsAsked == s.questionsAsked && r.stage == s.stage)
      && (st.outcome == Completed ==>
            && |r.messages| == n + 1
            && (r.stage == WrapUp ==>
                  && p.Exhausted?
                  && IndexOf(s.candidate.techStack, r.currentTech) + 1 == |s.candidate.techStack|
                  && r.messages[n].content == Said(WrapUpNote(s.candidate.name), s.language)
                  && r.questionsAsked == s.questionsAsked)
            && (r.stage != WrapUp ==>
                  && r.stage == TechnicalQuestions
                  && !p.Exhausted?
                  && r.messages[n].content == Said(TechQuestion(r.currentTech, p.question), s.language)
                  && r.questionsAsked == if p.FromDefault? then s.questionsAsked else s.questionsAsked + [p.question]))
  {
    var w := Walk(s, svc, choice, s.currentTech, {});
  }

  /** Without a generator every recorded question comes from the bank, and a bank
      question is only taken when it was not asked before: `questions_asked` stays
      free of repeats and grows by at most one. */
  lemma AskTechnicalNoRepeat(s: Session, svc: Services, choice: nat)
    requires s.tables.WellFormed() && s.currentTech in s.candidate.techStack
    requires s.stage == TechnicalQuestions
    requires !s.llmLoaded && Distinct(s.questionsAsked)
    ensures var r := AskTechnical(s, svc, choice).session;
      Distinct(r.questionsAsked) && |r.questionsAsked| <= |s.questionsAsked| + 1
  {
    AskTechnicalAsks(s, svc, choice);
    var st := AskTechnical(s, svc, choice);
    var p := SelectFor(s, svc, choice, st.session.currentTech);
    if st.outcome == Completed && st.session.stage != WrapUp && !p.FromDefault? {
      assert p.FromBank?;
      assert p.question !in s.questionsAsked;
    }
  }

  /** A technology written twice is the hazard of `techs.index`: with the tech stack
      `[t, t]`, the bank questions about `t` all asked and no generator, the
      self-recursion of `ask_technical_questions` moves from the second `t` back to
      the first one without end. */
  lemma {:induction false} AskTechnicalDiverges(s: Session, svc: Services, choice: nat, t: string)
    requires s.tables.WellFormed() && !s.llmLoaded
    requires s.candidate.techStack == [t, t] && s.currentTech == t
    requires HasNoUpper(t) && t in s.tables.techQuestions
    requires forall q :: q in s.tables.techQuestions[t] ==> q in s.questionsAsked
    ensures AskTechnical(s, svc, choice).outcome == RecursionError
  {
    LowerFixesLowered(t);
    var techs := s.candidate.techStack;
    assert IndexOf(techs, t) == 0;
    assert SelectFor(s, svc, choice, t).Exhausted?;
    assert Walk(s, svc, choice, t, {0}).diverged;
    assert Walk(s, svc, choice, t, {}) == Walk(s, svc, choice, techs[1], {} + {0});
  }

  // ----- The tech-stack stage -------------------------------------------------

  /** The comma pieces of a typical tech-stack answer. */
  lemma SplitExample()
    ensures Split("Python, Unknowntech, SQL", ',') == ["Python", " Unknowntech", " SQL"]
  {
    var pieces := ["Python", " Unknowntech", " SQL"];
    assert Join(pieces, ',') == "Python, Unknowntech, SQL" by {
      assert Join(pieces[2..], ',') == " SQL";
      assert Join(pieces[1..], ',') == " Unknowntech" + [','] + " SQL";
    }
    SplitJoin(pieces, ',');
  }

  /** The list the tech-stack stage stores for a typical answer: the comma pieces,
      trimmed and lower-cased, in input order, unknown ones included. */
  lemma ParseTechStackExample()
    ensures ParseTechStack("Python, Unknowntech, SQL") == ["python", "unknowntech", "sql"]
  {
    SplitExample();
    ParseThree("Python, Unknowntech, SQL", "Python", " Unknowntech", " SQL");
    StripLowerPython();
    StripLowerUnknowntech();
    StripLowerSql();
  }

  /** Parsing an answer of three comma pieces. */
  lemma ParseThree(text: string, a: string, b: string, c: string)
    requires Split(text, ',') == [a, b, c]
    ensures ParseTechStack(text) == [StripLower(a), StripLower(b), StripLower(c)]
  {
    ThreeEntries(ParseTechStack(text));
  }

  lemma ThreeEntries(xs: seq<string>)
    requires |xs| == 3
    ensures xs == [xs[0], xs[1], xs[2]]
  {
  }

  /** `strip().lower()` of a string whose stripped part is known. */
  lemma StripLowerOf(s: string, t: string, i: int)
    requires StrippedAt(s, t, i)
    requires t == [] || (!IsSpace(t[0]) && !IsSpace(t[|t| - 1]))
    ensures StripLower(s) == Lower(t)
  {
    StripIsUnique(s, t, i);
  }

  /** A word with no white space at its ends is only lower-cased. */
  lemma StripLowerWord(w: string)
    requires w != [] && !IsSpace(w[0]) && !IsSpace(w[|w| - 1])
    ensures StripLower(w) == Lower(w)
  {
    StripLowerOf(w, w, 0);
  }

  /** A word after one space loses the space and is lower-cased. */
  lemma StripLowerSpacedWord(w: string)
    requires w != [] && !IsSpace(w[0]) && !IsSpace(w[|w| - 1])
    ensures StripLower([' '] + w) == Lower(w)
  {
    assert ([' '] + w)[1..1 + |w|] == w;
    StripLowerOf([' '] + w, w, 1);
  }

  lemma StripLowerPython()
    ensures StripLower("Python") == "python"
  {
    StripLowerWord("Python");
    LowerPython();
  }

  lemma StripLowerUnknowntech()
    ensures StripLower(" Unknowntech") == "unknowntech"
  {
    SpacedWord(" Unknowntech", "Unknowntech");
    LowerUnknowntech();
  }

  lemma StripLowerSql()
    ensures StripLower(" SQL") == "sql"
  {
    SpacedWord(" SQL", "SQL");
    LowerSql();
  }

  lemma LowerPython()
    ensures Lower("Python") == "python"
  {
    var w, t := "Python", "python";
    assert LowerChar('P') == 'p';
    forall k | 1 <= k < |w| ensures LowerChar(w[k]) == t[k] {
      assert !IsUpper(w[k]) && w[k] == t[k];
    }
    LowerIs(w, t);
  }

  lemma LowerUnknowntech()
    ensures Lower("Unknowntech") == "unknowntech"
  {
    var w, t := "Unknowntech", "unknowntech";
    assert LowerChar('U') == 'u';
    forall k | 1 <= k < |w| ensures LowerChar(w[k]) == t[k] {
      assert !IsUpper(w[k]) && w[k] == t[k];
    }
    LowerIs(w, t);
  }

  lemma LowerSql()
    ensures Lower("SQL") == "sql"
  {
    var w, t := "SQL", "sql";
    forall k | 0 <= k < |w| ensures LowerChar(w[k]) == t[k] {
      if k == 0 {} else if k == 1 {} else {}
    }
    LowerIs(w, t);
  }

  /** `strip().lower()` of one space followed by a word. */
  lemma SpacedWord(s: string, w: string)
    requires |s| == |w| + 1 && s[0] == ' ' && s[1..] == w
    requires w != [] && !IsSpace(w[0]) && !IsSpace(w[|w| - 1])
    ensures StripLower(s) == Lower(w)
  {
    assert s == [' '] + w;
    StripLowerSpacedWord(w);
  }

  /** `t` is `s` lower-cased when it is so character by character. */
  lemma LowerIs(s: string, t: string)
    requires |s| == |t| && forall k :: 0 <= k < |s| ==> LowerChar(s[k]) == t[k]
    ensures Lower(s) == t
  {
  }

  /** The first known entry is the first of the filtered list. */
  lemma FirstKnownLeads(tb: Tables, techs: seq<string>, i: nat)
    requires FirstKnownAt(tb, techs, i)
    ensures KnownTechs(tb, techs) != [] && KnownTechs(tb, techs)[0] == techs[i]
  {
    var valid := KnownTechs(tb, techs);
    assert techs[i] in valid;
    var k :| FirstKnownAt(tb, techs, k) && techs[k] == valid[0];
    assert !(i < k) && !(k < i);
  }

  /** The first question about a technology the bank knows, with nothing asked yet,
      is found at once and recorded: a generated one only when a generator is
      loaded, a bank question about that technology otherwise. */
  lemma FirstQuestion(s: Session, svc: Services, choice: nat)
    requires s.tables.WellFormed() && s.currentTech in s.candidate.techStack
    requires Lower(s.currentTech) in s.tables.techQuestions && s.questionsAsked == []
    ensures var st := AskTechnical(s, svc, choice);
      var r := st.session;
      && st.outcome == Completed
      && r.stage == s.stage && r.currentTech == s.currentTech && r.askedCount == s.askedCount
      && |r.questionsAsked| == 1
      && (s.llmLoaded || r.questionsAsked[0] in s.tables.techQuestions[Lower(s.currentTech)])
      && r.messages == s.messages + [Message(Assistant, Said(TechQuestion(s.currentTech, r.questionsAsked[0]), s.language), None)]
  {
    var p := SelectFor(s, svc, choice, s.currentTech);
    assert s.tables.techQuestions[Lower(s.currentTech)] != [];
    assert !p.Exhausted? && !p.FromDefault?;
    assert Walk(s, svc, choice, s.currentTech, {}) == Walked(s.currentTech, p, false, false);
  }

  /** When some parsed entry has bank questions, the tech-stack stage keeps every
      parsed entry, known to the bank or not, in input order, moves to the technical
      questions about the first known entry with the count at zero, and asks exactly
      one question, which it records: a generated one only when a generator is
      loaded, a bank question about that entry otherwise. */
  lemma TechStackKnown(s: Session, working: string, svc: Services, choice: nat, i: nat)
    requires s.tables.WellFormed() && s.stage == TechStack && s.questionsAsked == [] && s.askedCount == 0
    requires FirstKnownAt(s.tables, ParseTechStack(working), i)
    ensures var st := TechStackStage(s, working, svc, choice);
      var r := st.session;
      var techs := ParseTechStack(working);
      && st.outcome == Completed
      && r.candidate == s.candidate.(techStack := techs) && r.techStackStr == working
      && r.stage == TechnicalQuestions && r.currentTech == techs[i] && r.askedCount == 0
      && |r.questionsAsked| == 1
      && (s.llmLoaded || r.questionsAsked[0] in s.tables.techQuestions[techs[i]])
      && r.messages == s.messages + [Message(Assistant, Said(TechQuestion(techs[i], r.questionsAsked[0]), s.language), None)]
  {
    var techs := ParseTechStack(working);
    FirstKnownLeads(s.tables, techs, i);
    var s1 := s.(techStackStr := working, candidate := s.candidate.(techStack := techs),
                 stage := TechnicalQuestions, currentTech := techs[i]);
    assert TechStackStage(s, working, svc, choice) == AskTechnical(s1, svc, choice);
    LowerFixesLowered(techs[i]);
    FirstQuestion(s1, svc, choice);
  }

  /** When no parsed entry has bank questions, the tech-stack stage still keeps
      every parsed entry, and exactly the two messages of `handle_unknown_tech_stack`
      follow before the interview goes to wrap-up. */
  lemma TechStackUnknown(s: Session, working: string, svc: Services, choice: nat)
    requires Inv(s) && s.stage == TechStack
    requires forall t :: t in ParseTechStack(working) ==> t !in s.tables.techQuestions
    ensures var st := TechStackStage(s, working, svc, choice);
      var r := st.session;
      && st.outcome == Completed
      && r.candidate == s.candidate.(techStack := ParseTechStack(working)) && r.techStackStr == working
      && r.stage == WrapUp
      && r.messages == s.messages + [
           Message(Assistant, Said(NoSpecificQuestions, s.language), None),
           Message(Assistant, Said(GeneralQuestion, s.language), None)]
      && r.questionsAsked == s.questionsAsked && r.currentTech == s.currentTech && r.askedCount == s.askedCount
  {
    var valid := KnownTechs(s.tables, ParseTechStack(working));
    if valid != [] {
      assert false;
    }
  }

  // ----- The cap of three answers per technology -----------------------------

  /** Below the cap an answer only raises the count, and the same technology is
      asked about again when its bank is not exhausted. */
  lemma BelowCapStays(s: Session, svc: Services, choice: nat)
    requires Inv(s) && s.stage == TechnicalQuestions && s.askedCount + 1 < MaxPerTech
    requires !SelectFor(s, svc, choice, s.currentTech).Exhausted?
    ensures var st := AnswerStage(s, svc, choice);
      var r := st.session;
      var p := SelectFor(s, svc, choice, s.currentTech);
      && st.outcome == Completed && r.stage == TechnicalQuestions
      && r.currentTech == s.currentTech && r.askedCount == s.askedCount + 1
      && r.messages == s.messages + [Message(Assistant, Said(TechQuestion(s.currentTech, p.question), s.language), None)]
      && r.questionsAsked == if p.FromDefault? then s.questionsAsked else s.questionsAsked + [p.question]
  {
    var s1 := s.(askedCount := s.askedCount + 1);
    var p := SelectFor(s, svc, choice, s.currentTech);
    assert SelectFor(s1, svc, choice, s.currentTech) == p;
    assert Walk(s1, svc, choice, s.currentTech, {}) == Walked(s.currentTech, p, false, false);
  }

  /** The answer that reaches the cap moves on to the next entry of the tech stack,
      with the count back at zero, and asks about it when its bank is not exhausted;
      after the last entry exactly the wrap-up note follows. */
  lemma CapMovesOn(s: Session, svc: Services, choice: nat)
    requires Inv(s) && s.stage == TechnicalQuestions && s.askedCount + 1 >= MaxPerTech
    ensures var st := AnswerStage(s, svc, choice);
      var r := st.session;
      var techs := s.candidate.techStack;
      var i := IndexOf(techs, s.currentTech);
      && (i + 1 == |techs| ==>
            && st.outcome == Completed && r.stage == WrapUp && r.currentTech == s.currentTech
            && r.messages == s.messages + [Message(Assistant, Said(WrapUpNote(s.candidate.name), s.language), None)]
            && r.questionsAsked == s.questionsAsked)
      && (i + 1 < |techs| && !SelectFor(s, svc, choice, techs[i + 1]).Exhausted? ==>
            var p := SelectFor(s, svc, choice, techs[i + 1]);
            && st.outcome == Completed && r.stage == TechnicalQuestions
            && r.currentTech == techs[i + 1] && r.askedCount == 0
            && r.messages == s.messages + [Message(Assistant, Said(TechQuestion(techs[i + 1], p.question), s.language), None)]
            && r.questionsAsked == if p.FromDefault? then s.questionsAsked else s.questionsAsked + [p.question])
  {
    var techs := s.candidate.techStack;
    var i := IndexOf(techs, s.currentTech);
    if i + 1 < |techs| && !SelectFor(s, svc, choice, techs[i + 1]).Exhausted? {
      CapMovesToNext(s, svc, choice, techs[i + 1], SelectFor(s, svc, choice, techs[i + 1]));
    }
  }

  /** The case of `CapMovesOn` with a next entry `next` whose pick `p` is a question. */
  lemma CapMovesToNext(s: Session, svc: Services, choice: nat, next: string, p: Selector.Pick)
    requires Inv(s) && s.stage == TechnicalQuestions && s.askedCount + 1 >= MaxPerTech
    requires var techs := s.candidate.techStack;
      var i := IndexOf(techs, s.currentTech);
      i + 1 < |techs| && next == techs[i + 1]
    requires p == SelectFor(s, svc, choice, next) && !p.Exhausted?
    ensures var st := AnswerStage(s, svc, choice);
      var r := st.session;
      && st.outcome == Completed && r.stage == TechnicalQuestions
      && r.currentTech == next && r.askedCount == 0
      && r.messages == s.messages + [Message(Assistant, Said(TechQuestion(next, p.question), s.language), None)]
      && r.questionsAsked == if p.FromDefault? then s.questionsAsked else s.questionsAsked + [p.question]
  {
    var s1 := s.(askedCount := 0, currentTech := next);
    assert AfterAnswer(s) == Some(s1);
    assert SelectFor(s1, svc, choice, next) == p;
    assert Walk(s1, svc, choice, next, {}) == Walked(next, p, false, false);
  }

  // ----- Whole turns ---------------------------------------------------------

  /** The tech list a turn works with: the one it parses in the tech-stack stage,
      the stored one otherwise. */
  function TechsInEffect(s: Session, svc: Services, input: string): (techs: seq<string>)
    ensures s.stage != TechStack ==> techs == s.candidate.techStack
  {
    if s.stage == TechStack then ParseTechStack(Working(svc, input)) else s.candidate.techStack
  }

  /** Over distinct parsed entries the tech-stack stage completes. */
  lemma TechStackCompletes(s: Session, working: string, svc: Services, choice: nat)
    requires s.tables.WellFormed() && Distinct(ParseTechStack(working))
    ensures TechStackStage(s, working, svc, choice).outcome == Completed
  {
    var techs := ParseTechStack(working);
    var valid := KnownTechs(s.tables, techs);
    if valid != [] {
      TechStackStageKnown(s, working, svc, choice);
      var s1 := s.(techStackStr := working, candidate := s.candidate.(techStack := techs));
      AskTechnicalCompletes(s1.(stage := TechnicalQuestions, currentTech := valid[0]), svc, choice);
    } else {
      TechStackStageUnknown(s, working, svc, choice);
    }
  }

  /** Over distinct entries an answer in the technical-questions stage completes. */
  lemma AnswerCompletes(s: Session, svc: Services, choice: nat)
    requires s.tables.WellFormed() && s.currentTech in s.candidate.techStack
    requires Distinct(s.candidate.techStack)
    ensures AnswerStage(s, svc, choice).outcome == Completed
  {
    match AfterAnswer(s)
    case Some(next) => AskTechnicalCompletes(next, svc, choice);
    case None =>
  }

  /** Over distinct entries every stage handler completes. */
  lemma DispatchCompletes(s: Session, working: string, svc: Services, choice: nat)
    requires Ready(s)
    requires Distinct(if s.stage == TechStack then ParseTechStack(working) else s.candidate.techStack)
    ensures Dispatch(s, working, svc, choice).outcome == Completed
  {
    match s.stage
    case TechStack => TechStackCompletes(s, working, svc, choice);
    case TechnicalQuestions => AnswerCompletes(s, svc, choice);
    case _ =>
  }

  /** When the tech list in effect has no repeated entry, every turn completes: the
      recursion of `ask_technical_questions` always ends. */
  lemma TurnCompletes(s: Session, input: string, svc: Services, choice: nat)
    requires Ready(s) && Distinct(TechsInEffect(s, svc, input))
    ensures Turn(s, input, svc, choice).outcome == Completed
  {
    if !ExitRequested(s, svc, input) {
      DispatchCompletes(Record(s, svc, input), Working(svc, input), svc, choice);
    }
  }

  /** With the tech stack `[t, t]`, the bank questions about `t` all asked and no
      generator, an answer in the technical-questions stage sends
      `ask_technical_questions` into endless recursion, below the cap and at the
      cap alike. */
  lemma AnswerDiverges(s: Session, svc: Services, choice: nat, t: string)
    requires s.tables.WellFormed() && s.currentTech in s.candidate.techStack && !s.llmLoaded
    requires s.candidate.techStack == [t, t] && HasNoUpper(t) && t in s.tables.techQuestions
    requires forall q :: q in s.tables.techQuestions[t] ==> q in s.questionsAsked
    ensures AnswerStage(s, svc, choice).outcome == RecursionError
  {
    assert IndexOf(s.candidate.techStack, t) == 0;
    var next := AfterAnswer(s).value;
    AskTechnicalDiverges(next, svc, choice, t);
  }

  /** The same hazard as a whole turn: any utterance that is not an exit phrase. */
  lemma DuplicateDiverges(s: Session, input: string, svc: Services, choice: nat, t: string)
    requires Inv(s) && s.stage == TechnicalQuestions && !s.llmLoaded && !ExitRequested(s, svc, input)
    requires s.candidate.techStack == [t, t] && HasNoUpper(t) && t in s.tables.techQuestions
    requires forall q :: q in s.tables.techQuestions[t] ==> q in s.questionsAsked
    ensures Turn(s, input, svc, choice).outcome == RecursionError
  {
    var s2 := Record(s, svc, input);
    assert s2.tables == s.tables && s2.llmLoaded == s.llmLoaded;
    AnswerDiverges(s2, svc, choice, t);
  }

  /** Without a generator no turn records a question twice. */
  lemma TurnNoRepeat(s: Session, input: string, svc: Services, choice: nat)
    requires Ready(s) && !s.llmLoaded && Distinct(s.questionsAsked)
    ensures Distinct(Turn(s, input, svc, choice).session.questionsAsked)
  {
    var s2 := Record(s, svc, input);
    assert s2.tables == s.tables && s2.llmLoaded == s.llmLoaded;
    if !ExitRequested(s, svc, input) {
      DispatchNoRepeat(s2, Working(svc, input), svc, choice);
    }
  }

  /** Without a generator the tech-stack stage records no question twice. */
  lemma TechStackNoRepeat(s: Session, working: string, svc: Services, choice: nat)
    requires s.tables.WellFormed() && !s.llmLoaded && Distinct(s.questionsAsked)
    ensures Distinct(TechStackStage(s, working, svc, choice).session.questionsAsked)
  {
    var techs := ParseTechStack(working);
    var valid := KnownTechs(s.tables, techs);
    if valid != [] {
      assert valid[0] in techs;
      var s1 := s.(techStackStr := working, candidate := s.candidate.(techStack := techs));
      AskTechnicalNoRepeat(s1.(stage := TechnicalQuestions, currentTech := valid[0]), svc, choice);
    }
  }

  /** Without a generator an answer records no question twice. */
  lemma AnswerNoRepeat(s: Session, svc: Services, choice: nat)
    requires s.tables.WellFormed() && s.currentTech in s.candidate.techStack
    requires s.stage == TechnicalQuestions && !s.llmLoaded && Distinct(s.questionsAsked)
    ensures Distinct(AnswerStage(s, svc, choice).session.questionsAsked)
  {
    match AfterAnswer(s)
    case Some(next) => AskTechnicalNoRepeat(next, svc, choice);
    case None =>
  }

  /** Without a generator no stage handler records a question twice. */
  lemma DispatchNoRepeat(s: Session, working: string, svc: Services, choice: nat)
    requires Ready(s) && !s.llmLoaded && Distinct(s.questionsAsked)
    ensures Distinct(Dispatch(s, working, svc, choice).session.questionsAsked)
  {
    match s.stage
    case TechStack => TechStackNoRepeat(s, working, svc, choice);
    case TechnicalQuestions => AnswerNoRepeat(s, svc, choice);
    case _ =>
  }

  /** Without a generator no question is ever recorded twice, however the
      conversation goes: every recorded question is a bank question that had not
      been asked before. */
  lemma {:induction false} NoRepeatsWithoutGenerator(s: Session, us: seq<Utterance>)
    requires Inv(s) && !s.llmLoaded && Distinct(s.questionsAsked)
    ensures Distinct(Run(s, us).questionsAsked)
    decreases |us|
  {
    if us != [] {
      var u := us[0];
      RunStep(s, us);
      TurnNoRepeat(s, u.input, u.svc, u.choice);
      TurnAfterRecord(s, u.input, u.svc, u.choice);
      NoRepeatsWithoutGenerator(Turn(s, u.input, u.svc, u.choice).session, us[1..]);
    }
  }

  /** From a fresh session without a generator, `questions_asked` never holds a
      question twice. */
  lemma FreshSessionNeverRepeats(tables: Tables, us: seq<Utterance>)
    requires tables.WellFormed()
    ensures Distinct(Run(Initial(false, tables), us).questionsAsked)
  {
    NoRepeatsWithoutGenerator(Initial(false, tables), us);
  }
}
